/** The optional evidence of a job payload and its size bound: `bound_symbolic_transport`. */
module SymbolicTransport {
  import opened Results
  import opened Strings
  import opened Utf8

  // --- JSON values --------------------------------------------------------------------

  datatype Member = Member(key: string, value: Json)

  datatype Json =
    | Null
    | Bool(b: bool)
    | Number(digits: seq<byte>, finite: bool)
    | Str(text: string)
    | List(items: seq<Json>)
    | Object(members: seq<Member>)

  datatype Catalog = Catalog(namespace: string, schemeId: string)

  /**
   What is kept abstract: how a string literal is spelled, strict UTF-8, the checks inside
   one evidence record and inside the binding, and what they name.
   */
  datatype Tools = Tools(
    literal: string -> seq<byte>,
    utf8: string -> bool,
    blank: char -> bool,
    evidenceFields: Json -> bool,
    proposal: Json -> string,
    catalog: Json -> Catalog,
    binding: Json -> Option<seq<Catalog>>)

  ghost predicate ToolsOk(t: Tools) {
    && (forall s: string :: |t.literal(s)| >= 2)
    && |t.literal("available")| == 11 && |t.literal("omitted_budget")| == 16
    && t.utf8("omitted_budget")
  }

  /** Octets of the compact JSON text; the order of the keys does not matter. */
  function Size(t: Tools, j: Json): nat
    decreases j
  {
    match j
    case Null => 4
    case Bool(b) => if b then 4 else 5
    case Number(digits, _) => |digits|
    case Str(text) => |t.literal(text)|
    case List(items) => if items == [] then 2 else 1 + ItemsSize(t, items)
    case Object(members) => if members == [] then 2 else 1 + MembersSize(t, members)
  }

  function ItemsSize(t: Tools, items: seq<Json>): nat
    decreases items
  {
    if items == [] then 0 else Size(t, items[0]) + 1 + ItemsSize(t, items[1..])
  }

  function MembersSize(t: Tools, members: seq<Member>): nat
    decreases members
  {
    if members == [] then 0
    else |t.literal(members[0].key)| + 1 + Size(t, members[0].value) + 1 + MembersSize(t, members[1..])
  }

  /** `json.dumps(..., allow_nan=False)` and the encoding to UTF-8 succeed. */
  predicate Encodable(t: Tools, j: Json)
    decreases j
  {
    match j
    case Number(_, finite) => finite
    case Str(text) => t.utf8(text)
    case List(items) => forall i | 0 <= i < |items| :: Encodable(t, items[i])
    case Object(members) => forall i | 0 <= i < |members| :: t.utf8(members[i].key) && Encodable(t, members[i].value)
    case _ => true
  }

  // --- the canonical text ---------------------------------------------------------------

  /** One member of an object, printed. */
  datatype Printed = Printed(key: string, text: seq<byte>)

  const COMMA: seq<byte> := Encode(",")

  function Listed(texts: seq<seq<byte>>): seq<byte> {
    if texts == [] then [] else texts[0] + if |texts| > 1 then COMMA + Listed(texts[1..]) else []
  }

  function TextsOf(printed: seq<Printed>): (texts: seq<seq<byte>>)
    ensures |texts| == |printed| && forall i | 0 <= i < |texts| :: texts[i] == printed[i].text
  {
    seq(|printed|, i requires 0 <= i < |printed| => printed[i].text)
  }

  function InsertKey(p: Printed, sorted: seq<Printed>): seq<Printed> {
    if sorted == [] || !Less(sorted[0].key, p.key) then [p] + sorted else [sorted[0]] + InsertKey(p, sorted[1..])
  }

  function SortKeys(printed: seq<Printed>): seq<Printed> {
    if printed == [] then [] else InsertKey(printed[0], SortKeys(printed[1..]))
  }

  /** `json.dumps` with compact separators and sorted keys, in UTF-8. */
  function Encoding(t: Tools, j: Json): seq<byte>
    decreases j
  {
    match j
    case Null => Encode("null")
    case Bool(b) => if b then Encode("true") else Encode("false")
    case Number(digits, _) => digits
    case Str(text) => t.literal(text)
    case List(items) => Encode("[") + Listed(ItemTexts(t, items)) + Encode("]")
    case Object(members) => Encode("{") + Listed(TextsOf(SortKeys(PrintedMembers(t, members)))) + Encode("}")
  }

  function ItemTexts(t: Tools, items: seq<Json>): seq<seq<byte>>
    decreases items
  {
    if items == [] then [] else [Encoding(t, items[0])] + ItemTexts(t, items[1..])
  }

  function PrintedMembers(t: Tools, members: seq<Member>): seq<Printed>
    decreases members
  {
    if members == [] then [] else [PrintedMember(t, members[0])] + PrintedMembers(t, members[1..])
  }

  function PrintedMember(t: Tools, m: Member): Printed
    decreases m
  {
    Printed(m.key, t.literal(m.key) + Encode(":") + Encoding(t, m.value))
  }

  // Texts with a comma, or the closing bracket, after each.
  function Lengths(texts: seq<seq<byte>>): nat {
    if texts == [] then 0 else |texts[0]| + 1 + Lengths(texts[1..])
  }

  lemma {:induction false} ListedLength(texts: seq<seq<byte>>)
    ensures |Listed(texts)| + 1 == if texts == [] then 1 else Lengths(texts)
  {
    if |texts| > 1 { ListedLength(texts[1..]); }
  }

  lemma {:induction false} InsertLengths(p: Printed, sorted: seq<Printed>)
    ensures Lengths(TextsOf(InsertKey(p, sorted))) == |p.text| + 1 + Lengths(TextsOf(sorted))
  {
    var r := InsertKey(p, sorted);
    if sorted == [] || !Less(sorted[0].key, p.key) {
      assert TextsOf(r)[1..] == TextsOf(sorted);
    } else {
      InsertLengths(p, sorted[1..]);
      assert TextsOf(r)[1..] == TextsOf(InsertKey(p, sorted[1..]));
      assert TextsOf(sorted)[1..] == TextsOf(sorted[1..]);
    }
  }

  lemma {:induction false} SortLengths(printed: seq<Printed>)
    ensures Lengths(TextsOf(SortKeys(printed))) == Lengths(TextsOf(printed)) && |SortKeys(printed)| == |printed|
  {
    if printed != [] {
      SortLengths(printed[1..]);
      InsertLengths(printed[0], SortKeys(printed[1..]));
      InsertCount(printed[0], SortKeys(printed[1..]));
      assert TextsOf(printed)[1..] == TextsOf(printed[1..]);
    }
  }

  lemma {:induction false} InsertCount(p: Printed, sorted: seq<Printed>)
    ensures |InsertKey(p, sorted)| == |sorted| + 1
  {
    if sorted != [] && Less(sorted[0].key, p.key) { InsertCount(p, sorted[1..]); }
  }

  /** The length of the text. */
  lemma {:induction false} EncodingSize(t: Tools, j: Json)
    ensures |Encoding(t, j)| == Size(t, j)
    decreases j, 1
  {
    match j
    case List(items) =>
      ItemsLength(t, items);
      ListedLength(ItemTexts(t, items));
    case Object(members) =>
      MembersLength(t, members);
      SortLengths(PrintedMembers(t, members));
      ListedLength(TextsOf(SortKeys(PrintedMembers(t, members))));
    case _ =>
  }

  lemma {:induction false} ItemsLength(t: Tools, items: seq<Json>)
    ensures Lengths(ItemTexts(t, items)) == ItemsSize(t, items) && |ItemTexts(t, items)| == |items|
    decreases items, 0
  {
    if items != [] {
      EncodingSize(t, items[0]);
      ItemsLength(t, items[1..]);
      assert ItemTexts(t, items)[1..] == ItemTexts(t, items[1..]);
    }
  }

  lemma {:induction false} MembersLength(t: Tools, members: seq<Member>)
    ensures Lengths(TextsOf(PrintedMembers(t, members))) == MembersSize(t, members)
    ensures |PrintedMembers(t, members)| == |members|
    decreases members, 0
  {
    if members != [] {
      EncodingSize(t, members[0].value);
      MembersLength(t, members[1..]);
      assert TextsOf(PrintedMembers(t, members))[1..] == TextsOf(PrintedMembers(t, members[1..]));
    }
  }

  // --- objects ------------------------------------------------------------------------

  predicate Distinct(members: seq<Member>) {
    forall i, j | 0 <= i < j < |members| :: members[i].key != members[j].key
  }

  function Lookup(members: seq<Member>, key: string): Option<Json> {
    if members == [] then None
    else if members[0].key == key then Some(members[0].value)
    else Lookup(members[1..], key)
  }

  /** `{**members, key: value}` for a key that is present. */
  function Replaced(members: seq<Member>, key: string, value: Json): (r: seq<Member>)
    ensures |r| == |members|
    ensures forall i | 0 <= i < |r| :: r[i] == if members[i].key == key then Member(key, value) else members[i]
  {
    seq(|members|, i requires 0 <= i < |members| => if members[i].key == key then Member(key, value) else members[i])
  }

  function Without(members: seq<Member>, keys: set<string>): seq<Member> {
    if members == [] then []
    else (if members[0].key in keys then [] else [members[0]]) + Without(members[1..], keys)
  }

  lemma {:induction false} ReplacedTail(members: seq<Member>, key: string, value: Json)
    requires members != []
    ensures Replaced(members, key, value)[1..] == Replaced(members[1..], key, value)
  {
  }

  lemma {:induction false} LookupReplaced(members: seq<Member>, key: string, value: Json, other: string)
    ensures Lookup(Replaced(members, key, value), other) ==
      if other == key && Lookup(members, key).Some? then Some(value) else Lookup(members, other)
  {
    if members != [] {
      ReplacedTail(members, key, value);
      LookupReplaced(members[1..], key, value, other);
    }
  }

  lemma {:induction false} Absent(members: seq<Member>, key: string, value: Json)
    requires Lookup(members, key).None?
    ensures Replaced(members, key, value) == members
  {
    if members != [] {
      ReplacedTail(members, key, value);
      Absent(members[1..], key, value);
      assert members == [members[0]] + members[1..];
      assert Replaced(members, key, value) == [members[0]] + Replaced(members[1..], key, value);
    }
  }

  lemma {:induction false} TailAbsent(members: seq<Member>, key: string)
    requires forall i | 0 <= i < |members| :: members[i].key != key
    ensures Lookup(members, key).None?
  {
    if members != [] { TailAbsent(members[1..], key); }
  }

  lemma {:induction false} ReplacedSize(t: Tools, members: seq<Member>, key: string, value: Json)
    requires Distinct(members) && Lookup(members, key).Some?
    ensures MembersSize(t, Replaced(members, key, value)) + Size(t, Lookup(members, key).value)
              == MembersSize(t, members) + Size(t, value)
  {
    ReplacedTail(members, key, value);
    if members[0].key == key {
      TailAbsent(members[1..], key);
      Absent(members[1..], key, value);
    } else {
      ReplacedSize(t, members[1..], key, value);
    }
  }

  lemma {:induction false} WithoutReplaced(members: seq<Member>, key: string, value: Json, keys: set<string>)
    requires key in keys
    ensures Without(Replaced(members, key, value), keys) == Without(members, keys)
  {
    if members != [] {
      ReplacedTail(members, key, value);
      WithoutReplaced(members[1..], key, value, keys);
    }
  }

  lemma {:induction false} SizeAtLeast(t: Tools, members: seq<Member>, key: string)
    requires Lookup(members, key).Some?
    ensures MembersSize(t, members) >= |t.literal(key)| + Size(t, Lookup(members, key).value) + 2
  {
    if members[0].key != key { SizeAtLeast(t, members[1..], key); }
  }

  function Keys(members: seq<Member>): set<string> { set i | 0 <= i < |members| :: members[i].key }

  lemma {:induction false} KeysReplaced(members: seq<Member>, key: string, value: Json)
    ensures Keys(Replaced(members, key, value)) == Keys(members)
    ensures Distinct(members) ==> Distinct(Replaced(members, key, value))
  {
    var r := Replaced(members, key, value);
    forall i | 0 <= i < |members| ensures r[i].key == members[i].key {}
  }

  // --- the text depends on the members alone -------------------------------------------------

  ghost predicate KeysAscend(printed: seq<Printed>) {
    forall i, j | 0 <= i < j < |printed| :: Less(printed[i].key, printed[j].key)
  }

  ghost predicate KeysDiffer(printed: seq<Printed>) {
    forall i, j | 0 <= i < j < |printed| :: printed[i].key != printed[j].key
  }

  lemma {:induction false} InsertMembers(p: Printed, sorted: seq<Printed>)
    ensures forall q :: q in InsertKey(p, sorted) <==> q == p || q in sorted
  {
    if sorted != [] && Less(sorted[0].key, p.key) {
      InsertMembers(p, sorted[1..]);
      assert sorted == [sorted[0]] + sorted[1..];
    }
  }

  lemma {:induction false} InsertAscends(p: Printed, sorted: seq<Printed>)
    requires KeysAscend(sorted) && forall i | 0 <= i < |sorted| :: sorted[i].key != p.key
    ensures KeysAscend(InsertKey(p, sorted))
  {
    if sorted != [] {
      LessTotal(sorted[0].key, p.key);
      var r := InsertKey(p, sorted);
      if Less(sorted[0].key, p.key) {
        InsertAscends(p, sorted[1..]);
        InsertMembers(p, sorted[1..]);
        forall j | 1 <= j < |r| ensures Less(r[0].key, r[j].key) {
          assert r[j] == r[1..][j - 1] && r[j] in InsertKey(p, sorted[1..]);
        }
      } else {
        forall j | 1 <= j < |r| ensures Less(r[0].key, r[j].key) {
          if j > 1 { LessTransitive(p.key, sorted[0].key, sorted[j - 1].key); }
        }
      }
    }
  }

  lemma {:induction false} SortAscends(printed: seq<Printed>)
    requires KeysDiffer(printed)
    ensures KeysAscend(SortKeys(printed)) && forall q :: q in SortKeys(printed) <==> q in printed
  {
    if printed != [] {
      var rest := SortKeys(printed[1..]);
      SortAscends(printed[1..]);
      forall i | 0 <= i < |rest| ensures rest[i].key != printed[0].key {
        assert rest[i] in printed[1..];
      }
      InsertAscends(printed[0], rest);
      InsertMembers(printed[0], rest);
      assert printed == [printed[0]] + printed[1..];
    }
  }

  lemma {:induction false} AscendingFirst(a: seq<Printed>, b: seq<Printed>)
    requires KeysAscend(a) && KeysAscend(b) && a != [] && b != [] && a[0] in b && b[0] in a
    ensures a[0] == b[0]
  {
    LessTotal(a[0].key, b[0].key);
  }

  lemma {:induction false} AscendingTail(a: seq<Printed>, q: Printed)
    requires KeysAscend(a) && a != []
    ensures q in a[1..] <==> q in a && q != a[0]
  {
    LessTotal(q.key, q.key);
  }

  lemma {:induction false} HeadPrinted(printed: seq<Printed>)
    ensures printed == [] || printed[0] in printed
  {
  }

  lemma {:induction false} AscendingSame(a: seq<Printed>, b: seq<Printed>)
    requires KeysAscend(a) && KeysAscend(b) && forall q :: q in a <==> q in b
    ensures a == b
  {
    if a == [] || b == [] {
      HeadPrinted(a);
      HeadPrinted(b);
    } else {
      assert a[0] in b && b[0] in a;
      AscendingFirst(a, b);
      forall q ensures q in a[1..] <==> q in b[1..] {
        AscendingTail(a, q);
        AscendingTail(b, q);
      }
      AscendingSame(a[1..], b[1..]);
    }
  }

  lemma {:induction false} PrintedAt(t: Tools, members: seq<Member>, i: nat)
    requires i < |members|
    ensures |PrintedMembers(t, members)| == |members|
    ensures PrintedMembers(t, members)[i] == PrintedMember(t, members[i])
  {
    MembersLength(t, members);
    if i > 0 { PrintedAt(t, members[1..], i - 1); }
  }

  lemma {:induction false} PrintedSame(t: Tools, a: seq<Member>, b: seq<Member>)
    requires forall m :: m in a ==> m in b
    ensures forall q :: q in PrintedMembers(t, a) ==> q in PrintedMembers(t, b)
  {
    MembersLength(t, a);
    forall q | q in PrintedMembers(t, a) ensures q in PrintedMembers(t, b) {
      var i :| 0 <= i < |a| && PrintedMembers(t, a)[i] == q;
      PrintedAt(t, a, i);
      assert a[i] in b;
      var j :| 0 <= j < |b| && b[j] == a[i];
      PrintedAt(t, b, j);
    }
  }

  lemma {:induction false} PrintedDistinct(t: Tools, members: seq<Member>)
    requires Distinct(members)
    ensures KeysDiffer(PrintedMembers(t, members))
  {
    var printed := PrintedMembers(t, members);
    MembersLength(t, members);
    forall i, j | 0 <= i < j < |printed| ensures printed[i].key != printed[j].key {
      PrintedAt(t, members, i);
      PrintedAt(t, members, j);
    }
  }

  /** However the members of an object are ordered, its canonical text is the same. */
  lemma {:induction false} CanonicalText(t: Tools, a: seq<Member>, b: seq<Member>)
    requires Distinct(a) && Distinct(b) && forall m :: m in a <==> m in b
    ensures Encoding(t, Object(a)) == Encoding(t, Object(b))
  {
    PrintedSame(t, a, b);
    PrintedSame(t, b, a);
    PrintedDistinct(t, a);
    PrintedDistinct(t, b);
    SortAscends(PrintedMembers(t, a));
    SortAscends(PrintedMembers(t, b));
    AscendingSame(SortKeys(PrintedMembers(t, a)), SortKeys(PrintedMembers(t, b)));
  }

  // --- the advisory context and its binding ------------------------------------------------

  const MAX_SYMBOLIC_CONTEXT_BYTES: nat := 16_384
  const MAX_SYMBOLIC_CONTEXT_ITEMS: nat := 4

  predicate EvidenceOk(t: Tools, e: Json) {
    && e.Object? && Lookup(e.members, "schema_version") == Some(Str("symbolic-evidence-v1"))
    && t.evidenceFields(e)
  }

  function EvidenceOf(c: Json): Option<seq<Json>> {
    if !c.Object? then None
    else
      match Lookup(c.members, "evidence")
      case Some(List(items)) => Some(items)
      case _ => None
  }

  predicate StatusOk(status: Option<Json>, evidence: seq<Json>) {
    status == Some(Str("available")) || (status == Some(Str("omitted_budget")) && evidence == [])
  }

  predicate HeadOk(members: seq<Member>) {
    && Distinct(members)
    && Keys(members) == {"schema_version", "evidence", "status", "grants_authority"}
    && Lookup(members, "schema_version") == Some(Str("symbolic-context-v1"))
    && Lookup(members, "grants_authority") == Some(Bool(false))
  }

  /** What `validate_symbolic_context` accepts. */
  predicate ContextOk(t: Tools, c: Json) {
    && c.Object? && HeadOk(c.members)
    && Encodable(t, c) && Size(t, c) <= MAX_SYMBOLIC_CONTEXT_BYTES
    && EvidenceOf(c).Some? && EvidenceListOk(t, Lookup(c.members, "status"), EvidenceOf(c).value)
  }

  predicate EvidenceListOk(t: Tools, status: Option<Json>, evidence: seq<Json>) {
    && |evidence| <= MAX_SYMBOLIC_CONTEXT_ITEMS
    && StatusOk(status, evidence)
    && (forall i | 0 <= i < |evidence| :: EvidenceOk(t, evidence[i]))
    && (forall i, j | 0 <= i < j < |evidence| :: t.proposal(evidence[i]) != t.proposal(evidence[j]))
  }

  /** The same context with its evidence left out for want of room. */
  function EvidenceFree(c: Json): Json
    requires c.Object?
  {
    Object(Replaced(Replaced(c.members, "evidence", List([])), "status", Str("omitted_budget")))
  }

  lemma {:induction false} EvidenceSize(t: Tools, evidence: seq<Json>)
    requires ToolsOk(t) && evidence != [] && EvidenceOk(t, evidence[0])
    ensures Size(t, List(evidence)) >= 9
  {
    var first := evidence[0];
    SizeAtLeast(t, first.members, "schema_version");
    assert Size(t, first) == 1 + MembersSize(t, first.members) >= 7;
    assert Size(t, List(evidence)) == 1 + (Size(t, first) + 1 + ItemsSize(t, evidence[1..]));
  }

  lemma {:induction false} ReplacedTwice(t: Tools, members: seq<Member>, a: string, v: Json, b: string, w: Json)
    requires Distinct(members) && Lookup(members, a).Some? && Lookup(members, b).Some? && a != b
    ensures
      MembersSize(t, Replaced(Replaced(members, a, v), b, w))
      + Size(t, Lookup(members, a).value) + Size(t, Lookup(members, b).value)
      == MembersSize(t, members) + Size(t, v) + Size(t, w)
  {
    ReplacedSize(t, members, a, v);
    KeysReplaced(members, a, v);
    LookupReplaced(members, a, v, b);
    ReplacedSize(t, Replaced(members, a, v), b, w);
  }

  lemma {:induction false} StripSize(t: Tools, members: seq<Member>, evidence: seq<Json>)
    requires ToolsOk(t) && Distinct(members) && evidence != [] && EvidenceOk(t, evidence[0])
    requires Lookup(members, "evidence") == Some(List(evidence)) && Lookup(members, "status") == Some(Str("available"))
    ensures MembersSize(t, Replaced(Replaced(members, "evidence", List([])), "status", Str("omitted_budget")))
            < MembersSize(t, members)
  {
    EvidenceSize(t, evidence);
    ReplacedTwice(t, members, "evidence", List([]), "status", Str("omitted_budget"));
  }

  lemma {:induction false} ReplacedEncodable(t: Tools, members: seq<Member>, key: string, value: Json)
    requires Encodable(t, Object(members)) && Encodable(t, value)
    ensures Encodable(t, Object(Replaced(members, key, value)))
  {
    var r := Replaced(members, key, value);
    forall i | 0 <= i < |r| ensures t.utf8(r[i].key) && Encodable(t, r[i].value) {
      assert t.utf8(members[i].key) && Encodable(t, members[i].value);
    }
  }

  lemma {:induction false} FreeLookups(members: seq<Member>, key: string)
    ensures Lookup(EvidenceFree(Object(members)).members, key) ==
      if key == "status" && Lookup(members, key).Some? then Some(Str("omitted_budget"))
      else if key == "evidence" && Lookup(members, key).Some? then Some(List([]))
      else Lookup(members, key)
  {
    LookupReplaced(members, "evidence", List([]), key);
    LookupReplaced(Replaced(members, "evidence", List([])), "status", Str("omitted_budget"), key);
  }

  lemma {:induction false} FreeHead(members: seq<Member>)
    requires HeadOk(members)
    ensures HeadOk(EvidenceFree(Object(members)).members)
  {
    var first := Replaced(members, "evidence", List([]));
    KeysReplaced(members, "evidence", List([]));
    KeysReplaced(first, "status", Str("omitted_budget"));
    FreeLookups(members, "schema_version");
    FreeLookups(members, "grants_authority");
  }

  lemma {:induction false} FreeEncodable(t: Tools, members: seq<Member>)
    requires ToolsOk(t) && Encodable(t, Object(members))
    ensures Encodable(t, EvidenceFree(Object(members)))
  {
    ReplacedEncodable(t, members, "evidence", List([]));
    ReplacedEncodable(t, Replaced(members, "evidence", List([])), "status", Str("omitted_budget"));
  }

  lemma {:induction false} EvidenceListed(t: Tools, c: Json)
    requires ContextOk(t, c)
    ensures Lookup(c.members, "evidence") == Some(List(EvidenceOf(c).value)) && Distinct(c.members)
    ensures Lookup(c.members, "status").Some?
    ensures EvidenceOf(c).value != [] ==>
              && Lookup(c.members, "status") == Some(Str("available"))
              && EvidenceOk(t, EvidenceOf(c).value[0])
  {
  }

  /** Leaving the evidence out of an acceptable context keeps it acceptable and makes it shorter. */
  lemma {:induction false} FreeContextOk(t: Tools, c: Json)
    requires ToolsOk(t) && ContextOk(t, c) && EvidenceOf(c).value != []
    ensures ContextOk(t, EvidenceFree(c)) && EvidenceOf(EvidenceFree(c)) == Some([])
    ensures Size(t, EvidenceFree(c)) < Size(t, c)
  {
    var members := c.members;
    EvidenceListed(t, c);
    FreeHead(members);
    FreeEncodable(t, members);
    FreeLookups(members, "evidence");
    FreeLookups(members, "status");
    StripSize(t, members, EvidenceOf(c).value);
    assert EvidenceFree(c).members != [] && members != [];
  }

  // --- symbolic_transport ----------------------------------------------------------------

  datatype TransportError = Incomplete | InvalidContext | InvalidBinding | CatalogMismatch

  datatype Advisory = NoAdvice | Advisory(context: Json, binding: Json)

  datatype Transport = Transport(operation: seq<Member>, advisory: Advisory)

  const TRANSPORT: set<string> := {"symbolic_context", "symbolic_context_binding"}

  predicate Catalogued(t: Tools, evidence: seq<Json>, catalogs: seq<Catalog>) {
    forall i | 0 <= i < |evidence| :: t.catalog(evidence[i]) in catalogs
  }

  /** Separates the advisory data of a payload from the arguments of its operation. */
  function SymbolicTransport(t: Tools, payload: seq<Member>): Result<Transport, TransportError> {
    var context, binding := Lookup(payload, "symbolic_context"), Lookup(payload, "symbolic_context_binding");
    if context.None? && binding.None? then Ok(Transport(payload, NoAdvice))
    else if context.None? || binding.None? then Err(Incomplete)
    else if !ContextOk(t, context.value) then Err(InvalidContext)
    else
      var catalogs := t.binding(binding.value);
      if catalogs.None? then Err(InvalidBinding)
      else if !Catalogued(t, EvidenceOf(context.value).value, catalogs.value) then Err(CatalogMismatch)
      else Ok(Transport(Without(payload, TRANSPORT), Advisory(context.value, binding.value)))
  }

  // --- bound_symbolic_transport ---------------------------------------------------------------

  datatype BoundError = NotCanonical | TooLarge

  predicate HasEvidence(payload: seq<Member>) {
    match Lookup(payload, "symbolic_context")
    case None => false
    case Some(c) => EvidenceOf(c).Some? && EvidenceOf(c).value != []
  }

  /** The payload with the evidence of its context, if there is any, left out. */
  function Stripped(payload: seq<Member>): seq<Member> {
    if HasEvidence(payload) then
      Replaced(payload, "symbolic_context", EvidenceFree(Lookup(payload, "symbolic_context").value))
    else payload
  }

  ghost predicate SameOperation(t: Tools, a: seq<Member>, b: seq<Member>) {
    var x, y := SymbolicTransport(t, a), SymbolicTransport(t, b);
    && x.Ok? && y.Ok? && x.value.operation == y.value.operation
    && (x.value.advisory.NoAdvice? <==> y.value.advisory.NoAdvice?)
    && (x.value.advisory.Advisory? ==> x.value.advisory.binding == y.value.advisory.binding)
  }

  lemma {:induction false} StrippedLookups(payload: seq<Member>)
    requires HasEvidence(payload)
    ensures
      var c := Lookup(payload, "symbolic_context").value;
      && Lookup(Stripped(payload), "symbolic_context") == Some(EvidenceFree(c))
      && Lookup(Stripped(payload), "symbolic_context_binding") == Lookup(payload, "symbolic_context_binding")
      && Without(Stripped(payload), TRANSPORT) == Without(payload, TRANSPORT)
  {
    var free := EvidenceFree(Lookup(payload, "symbolic_context").value);
    LookupReplaced(payload, "symbolic_context", free, "symbolic_context");
    LookupReplaced(payload, "symbolic_context", free, "symbolic_context_binding");
    WithoutReplaced(payload, "symbolic_context", free, TRANSPORT);
  }

  /** What is left is accepted again, with the same operation and binding. */
  lemma {:induction false} StrippedAccepted(t: Tools, payload: seq<Member>)
    requires ToolsOk(t) && Distinct(payload) && SymbolicTransport(t, payload).Ok? && HasEvidence(payload)
    ensures SameOperation(t, payload, Stripped(payload))
  {
    StrippedLookups(payload);
    FreeContextOk(t, Lookup(payload, "symbolic_context").value);
  }

  /** And it is shorter. */
  lemma {:induction false} StrippedShorter(t: Tools, payload: seq<Member>)
    requires ToolsOk(t) && Distinct(payload) && HasEvidence(payload)
    requires ContextOk(t, Lookup(payload, "symbolic_context").value)
    ensures |Encoding(t, Object(Stripped(payload)))| < |Encoding(t, Object(payload))|
    ensures Encodable(t, Object(payload)) ==> Encodable(t, Object(Stripped(payload)))
  {
    var c := Lookup(payload, "symbolic_context").value;
    FreeContextOk(t, c);
    ReplacedSize(t, payload, "symbolic_context", EvidenceFree(c));
    EncodingSize(t, Object(payload));
    EncodingSize(t, Object(Stripped(payload)));
    if Encodable(t, Object(payload)) {
      ReplacedEncodable(t, payload, "symbolic_context", EvidenceFree(c));
    }
  }

  /**
   An accepted payload is returned unchanged if it fits, else without its evidence if
   that fits, together with its canonical text; it is refused exactly if even the form
   without evidence is too large.
   */
  method BoundSymbolicTransport(t: Tools, payload: seq<Member>, maximum: int)
    returns (r: Result<(seq<Member>, seq<byte>), BoundError>)
    requires ToolsOk(t) && Distinct(payload) && SymbolicTransport(t, payload).Ok?
    ensures r == Err(NotCanonical) <==> !Encodable(t, Object(payload))
    ensures r == Err(TooLarge) <==>
              Encodable(t, Object(payload)) && |Encoding(t, Object(Stripped(payload)))| > maximum
    ensures r.Ok? ==>
      && r.value.1 == Encoding(t, Object(r.value.0)) && |r.value.1| <= maximum
      && SameOperation(t, payload, r.value.0)
      && r.value.0 == if |Encoding(t, Object(payload))| <= maximum then payload else Stripped(payload)
  {
    if !Encodable(t, Object(payload)) {
      return Err(NotCanonical);
    }
    var result, encoded := payload, Encoding(t, Object(payload));
    if HasEvidence(payload) {
      StrippedAccepted(t, payload);
      StrippedShorter(t, payload);
    }
    if |encoded| > maximum && HasEvidence(payload) {
      result := Replaced(payload, "symbolic_context", EvidenceFree(Lookup(payload, "symbolic_context").value));
      if !Encodable(t, Object(result)) {
        return Err(NotCanonical);
      }
      encoded := Encoding(t, Object(result));
    }
    if |encoded| > maximum {
      return Err(TooLarge);
    }
    return Ok((result, encoded));
  }

  // --- the bounded traversal of applicability data --------------------------------------------

  predicate TextOk(t: Tools, text: string, maximum: nat) {
    && (exists i :: 0 <= i < |text| && !t.blank(text[i]))
    && |text| <= maximum && 0 as char !in text && t.utf8(text)
  }

  /** The deepest nesting, and the number of values, in a JSON value. */
  function Depth(j: Json): nat
    decreases j
  {
    match j
    case List(items) => ItemsDepth(items)
    case Object(members) => MembersDepth(members)
    case _ => 0
  }

  function Max(a: nat, b: nat): nat { if a < b then b else a }

  function ItemsDepth(items: seq<Json>): nat
    decreases items
  {
    if items == [] then 0 else Max(1 + Depth(items[0]), ItemsDepth(items[1..]))
  }

  function MembersDepth(members: seq<Member>): nat
    decreases members
  {
    if members == [] then 0 else Max(1 + Depth(members[0].value), MembersDepth(members[1..]))
  }

  function Count(j: Json): nat
    decreases j
  {
    match j
    case List(items) => 1 + ItemsCount(items)
    case Object(members) => 1 + MembersCount(members)
    case _ => 1
  }

  function ItemsCount(items: seq<Json>): nat
    decreases items
  {
    if items == [] then 0 else Count(items[0]) + ItemsCount(items[1..])
  }

  function MembersCount(members: seq<Member>): nat
    decreases members
  {
    if members == [] then 0 else Count(members[0].value) + MembersCount(members[1..])
  }

  predicate LeavesOk(t: Tools, j: Json)
    decreases j
  {
    match j
    case Number(_, finite) => finite
    case Str(text) => 0 as char !in text && t.utf8(text)
    case List(items) => forall i | 0 <= i < |items| :: LeavesOk(t, items[i])
    case Object(members) =>
      forall i | 0 <= i < |members| :: TextOk(t, members[i].key, 200) && LeavesOk(t, members[i].value)
    case _ => true
  }

  predicate Bounded(t: Tools, j: Json, depth: nat, count: nat) {
    depth + Depth(j) <= 8 && count + Count(j) <= 512 && LeavesOk(t, j)
  }

  /**
   One shared counter and an early stop decide what the totals say: the value is
   accepted exactly if it is at most eight deep, has at most 512 values in all, and
   every leaf is acceptable.
   */
  method CheckJson(t: Tools, j: Json, depth: nat, count: nat) returns (r: Option<nat>)
    requires depth <= 9 && count <= 512
    ensures r == if Bounded(t, j, depth, count) then Some(count + Count(j)) else None
    decreases j, 1
  {
    if depth > 8 || count + 1 > 512 {
      return None;
    }
    match j
    case Object(members) => r := CheckMembers(t, members, depth, count + 1);
    case List(items) => r := CheckItems(t, items, depth, count + 1);
    case Str(text) => r := if 0 as char !in text && t.utf8(text) then Some(count + 1) else None;
    case Number(_, finite) => r := if finite then Some(count + 1) else None;
    case _ => r := Some(count + 1);
  }

  ghost predicate ItemsBounded(t: Tools, items: seq<Json>, depth: nat, count: nat) {
    && depth + ItemsDepth(items) <= 8 && count + ItemsCount(items) <= 512
    && forall i | 0 <= i < |items| :: LeavesOk(t, items[i])
  }

  lemma {:induction false} ItemsFirst(t: Tools, items: seq<Json>, depth: nat, count: nat)
    requires items != [] && depth <= 8
    ensures ItemsBounded(t, items, depth, count) <==>
      Bounded(t, items[0], depth + 1, count) && ItemsBounded(t, items[1..], depth, count + Count(items[0]))
  {
    if LeavesOk(t, items[0]) && (forall i | 0 <= i < |items[1..]| :: LeavesOk(t, items[1..][i])) {
      forall i | 0 <= i < |items| ensures LeavesOk(t, items[i]) {
        if i > 0 { assert items[i] == items[1..][i - 1]; }
      }
    }
  }

  method CheckItems(t: Tools, items: seq<Json>, depth: nat, count: nat) returns (r: Option<nat>)
    requires depth <= 8 && count <= 512
    ensures r == if ItemsBounded(t, items, depth, count) then Some(count + ItemsCount(items)) else None
    decreases items, 0
  {
    var total := count;
    for i := 0 to |items|
      invariant 0 <= total <= 512 && total + ItemsCount(items[i..]) == count + ItemsCount(items)
      invariant ItemsBounded(t, items, depth, count) <==> ItemsBounded(t, items[i..], depth, total)
    {
      ItemsFirst(t, items[i..], depth, total);
      assert items[i..][0] == items[i] && items[i..][1..] == items[i + 1..];
      var next := CheckJson(t, items[i], depth + 1, total);
      if next.None? {
        return None;
      }
      total := next.value;
    }
    assert items[|items|..] == [];
    return Some(total);
  }

  ghost predicate MembersBounded(t: Tools, members: seq<Member>, depth: nat, count: nat) {
    && depth + MembersDepth(members) <= 8 && count + MembersCount(members) <= 512
    && forall i | 0 <= i < |members| :: TextOk(t, members[i].key, 200) && LeavesOk(t, members[i].value)
  }

  lemma {:induction false} MembersFirst(t: Tools, members: seq<Member>, depth: nat, count: nat)
    requires members != [] && depth <= 8
    ensures MembersBounded(t, members, depth, count) <==>
      && TextOk(t, members[0].key, 200) && Bounded(t, members[0].value, depth + 1, count)
      && MembersBounded(t, members[1..], depth, count + Count(members[0].value))
  {
    var rest := members[1..];
    if TextOk(t, members[0].key, 200) && LeavesOk(t, members[0].value)
       && (forall i | 0 <= i < |rest| :: TextOk(t, rest[i].key, 200) && LeavesOk(t, rest[i].value)) {
      forall i | 0 <= i < |members| ensures TextOk(t, members[i].key, 200) && LeavesOk(t, members[i].value) {
        if i > 0 { assert members[i] == rest[i - 1]; }
      }
    }
  }

  method CheckMembers(t: Tools, members: seq<Member>, depth: nat, count: nat) returns (r: Option<nat>)
    requires depth <= 8 && count <= 512
    ensures r == if MembersBounded(t, members, depth, count) then Some(count + MembersCount(members)) else None
    decreases members, 0
  {
    var total := count;
    for i := 0 to |members|
      invariant 0 <= total <= 512 && total + MembersCount(members[i..]) == count + MembersCount(members)
      invariant MembersBounded(t, members, depth, count) <==> MembersBounded(t, members[i..], depth, total)
    {
      MembersFirst(t, members[i..], depth, total);
      assert members[i..][0] == members[i] && members[i..][1..] == members[i + 1..];
      if !TextOk(t, members[i].key, 200) {
        return None;
      }
      var next := CheckJson(t, members[i].value, depth + 1, total);
      if next.None? {
        return None;
      }
      total := next.value;
    }
    assert members[|members|..] == [];
    return Some(total);
  }
}
