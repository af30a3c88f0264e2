/** Canonical texts can be read back: equal texts mean the same value. */
module CanonicalReading {
  import opened Results
  import opened Strings
  import opened Utf8
  import opened SymbolicTransport

  // --- what is assumed of string literals and numbers -----------------------------------

  const QUOTE: byte := 34
  const COMMA_OCTET: byte := 44
  const LIST_END: byte := 93
  const OBJECT_END: byte := 125

  predicate NumberOctet(b: byte) { 48 <= b <= 57 || b == 43 || b == 45 || b == 46 || b == 69 || b == 101 }

  /** A literal starts with a quote, and its end can be told without looking further. */
  ghost predicate Literals(t: Tools) {
    && (forall s: string :: t.literal(s) != [] && t.literal(s)[0] == QUOTE)
    && (forall a: string, b: string, x: seq<byte>, y: seq<byte> |
          t.utf8(a) && t.utf8(b) && t.literal(a) + x == t.literal(b) + y :: a == b)
  }

  /** Encodable, with digits for numbers, and keys that differ, at every depth. */
  ghost predicate Proper(t: Tools, j: Json)
    decreases j
  {
    match j
    case Number(digits, finite) => finite && digits != [] && forall i | 0 <= i < |digits| :: NumberOctet(digits[i])
    case Str(text) => t.utf8(text)
    case List(items) => forall i | 0 <= i < |items| :: Proper(t, items[i])
    case Object(members) =>
      && Distinct(members)
      && forall i | 0 <= i < |members| :: t.utf8(members[i].key) && Proper(t, members[i].value)
    case _ => true
  }

  /** Equal but for the order of members, at every depth. */
  ghost predicate Same(a: Json, b: Json)
    decreases a
  {
    match a
    case List(items) => b.List? && |items| == |b.items| && forall i | 0 <= i < |items| :: Same(items[i], b.items[i])
    case Object(members) =>
      && b.Object? && Keys(members) == Keys(b.members)
      && forall i, j | 0 <= i < |members| && 0 <= j < |b.members| && members[i].key == b.members[j].key ::
           Same(members[i].value, b.members[j].value)
    case _ => a == b
  }

  // --- where a text ends -------------------------------------------------------------------

  // What can follow a value.
  predicate Ended(rest: seq<byte>) {
    rest == [] || rest[0] == COMMA_OCTET || rest[0] == LIST_END || rest[0] == OBJECT_END
  }

  ghost predicate Separate(a: seq<byte>, b: seq<byte>) {
    forall x: seq<byte>, y: seq<byte> | Ended(x) && Ended(y) && a + x == b + y :: a == b
  }

  lemma {:induction false} SeparateHere(a: seq<byte>, b: seq<byte>, x: seq<byte>, y: seq<byte>)
    requires Separate(a, b) && Ended(x) && Ended(y) && a + x == b + y
    ensures a == b && x == y
  {
    assert (a + x)[|a|..] == x && (b + y)[|b|..] == y;
  }

  lemma {:induction false} PartAt(a: seq<byte>, b: seq<byte>, k: nat)
    ensures k < |a| ==> (a + b)[k] == a[k]
    ensures |a| <= k < |a| + |b| ==> (a + b)[k] == b[k - |a|]
  {
  }

  lemma {:induction false} DigitsSeparate(a: seq<byte>, b: seq<byte>, x: seq<byte>, y: seq<byte>)
    requires forall i | 0 <= i < |a| :: NumberOctet(a[i])
    requires forall i | 0 <= i < |b| :: NumberOctet(b[i])
    requires Ended(x) && Ended(y) && a + x == b + y
    ensures a == b
  {
    PartAt(a, x, |a|);
    PartAt(b, y, |a|);
    PartAt(a, x, |b|);
    PartAt(b, y, |b|);
    assert a == (a + x)[..|a|] && b == (b + y)[..|b|];
  }

  // A kind of value shows in its first octet, which ends nothing.
  function Kind(j: Json): byte {
    match j
    case Null => 110
    case Bool(b) => if b then 116 else 102
    case Number(_, _) => 48
    case Str(_) => QUOTE
    case List(_) => 91
    case Object(_) => 123
  }

  lemma {:induction false} FirstOctet(t: Tools, j: Json)
    requires Literals(t) && Proper(t, j)
    ensures
      var text := Encoding(t, j);
      && text != [] && !Ended(text)
      && (if j.Number? then NumberOctet(text[0]) else text[0] == Kind(j))
  {
    match j
    case List(items) => assert Encoding(t, j)[0] == Encode("[")[0];
    case Object(members) => assert Encoding(t, j)[0] == Encode("{")[0];
    case _ =>
  }

  // --- lists of texts ----------------------------------------------------------------------------

  ghost predicate AllSeparate(a: seq<seq<byte>>, b: seq<seq<byte>>) {
    && (forall i, j | 0 <= i < |a| && 0 <= j < |b| :: Separate(a[i], b[j]))
    && (forall i | 0 <= i < |a| :: a[i] != [] && !Ended(a[i]))
    && (forall i | 0 <= i < |b| :: b[i] != [] && !Ended(b[i]))
  }

  // What follows the first text of a list.
  function Tail(texts: seq<seq<byte>>): seq<byte>
    requires texts != []
  {
    if |texts| > 1 then COMMA + Listed(texts[1..]) else []
  }

  lemma {:induction false} ListedFirst(texts: seq<seq<byte>>, rest: seq<byte>)
    requires texts != []
    ensures Listed(texts) + rest == texts[0] + (Tail(texts) + rest)
  {
  }

  lemma {:induction false} ListedNot(texts: seq<seq<byte>>, end: byte, x: seq<byte>, y: seq<byte>)
    requires texts != [] && texts[0] != [] && !Ended(texts[0]) && (end == LIST_END || end == OBJECT_END)
    ensures Listed(texts) + ([end] + x) != [end] + y
  {
    ListedFirst(texts, [end] + x);
    assert (Listed(texts) + ([end] + x))[0] == texts[0][0];
  }

  /** A list of texts, closed by a bracket, can be taken apart. */
  lemma {:induction false} ListedRead(a: seq<seq<byte>>, b: seq<seq<byte>>, end: byte, x: seq<byte>, y: seq<byte>)
    requires AllSeparate(a, b) && (end == LIST_END || end == OBJECT_END)
    requires Listed(a) + ([end] + x) == Listed(b) + ([end] + y)
    ensures a == b && x == y
    decreases |a|
  {
    if a == [] {
      assert Listed(a) + ([end] + x) == [end] + x;
      if b != [] { ListedNot(b, end, y, x); }
      assert x == ([end] + x)[1..] && y == ([end] + y)[1..];
    } else if b == [] {
      assert Listed(b) + ([end] + y) == [end] + y;
      ListedNot(a, end, x, y);
    } else {
      var rest, other := Tail(a) + ([end] + x), Tail(b) + ([end] + y);
      ListedFirst(a, [end] + x);
      ListedFirst(b, [end] + y);
      assert Separate(a[0], b[0]);
      SeparateHere(a[0], b[0], rest, other);
      TailRead(a, b, end, x, y);
    }
  }

  // The octet behind the first text tells whether there is a second one.
  lemma {:induction false} TailFirst(texts: seq<seq<byte>>, end: byte, x: seq<byte>)
    requires texts != []
    ensures
      var rest := Tail(texts) + ([end] + x);
      && rest[0] == (if |texts| > 1 then COMMA_OCTET else end)
      && rest[1..] == if |texts| > 1 then Listed(texts[1..]) + ([end] + x) else x
  {
    if |texts| > 1 {
      CommaFirst(Listed(texts[1..]), [end] + x);
    } else {
      assert [] + ([end] + x) == [end] + x;
    }
  }

  lemma {:induction false} CommaFirst(text: seq<byte>, x: seq<byte>)
    ensures COMMA + text + x != [] && (COMMA + text + x)[0] == COMMA_OCTET && (COMMA + text + x)[1..] == text + x
  {
    assert |COMMA| == 1 && COMMA[0] == COMMA_OCTET;
  }

  lemma {:induction false} TailRead(a: seq<seq<byte>>, b: seq<seq<byte>>, end: byte, x: seq<byte>, y: seq<byte>)
    requires a != [] && b != [] && AllSeparate(a, b) && (end == LIST_END || end == OBJECT_END) && a[0] == b[0]
    requires Tail(a) + ([end] + x) == Tail(b) + ([end] + y)
    ensures a == b && x == y
    decreases |a|, 0
  {
    TailFirst(a, end, x);
    TailFirst(b, end, y);
    if |a| > 1 {
      RestSeparate(a, b);
      ListedRead(a[1..], b[1..], end, x, y);
      assert a == [a[0]] + a[1..] && b == [b[0]] + b[1..];
    } else {
      assert a == [a[0]] && b == [b[0]];
    }
  }

  lemma {:induction false} RestSeparate(a: seq<seq<byte>>, b: seq<seq<byte>>)
    requires a != [] && b != [] && AllSeparate(a, b)
    ensures AllSeparate(a[1..], b[1..])
  {
    forall i, j | 0 <= i < |a| - 1 && 0 <= j < |b| - 1 ensures Separate(a[1..][i], b[1..][j]) {
      assert Separate(a[i + 1], b[j + 1]);
    }
  }

  // --- values -----------------------------------------------------------------------------------------

  /** Where the text of a value ends can be told from what follows. */
  lemma {:induction false} Reads(t: Tools, a: Json, b: Json)
    requires Literals(t) && Proper(t, a) && Proper(t, b)
    ensures Separate(Encoding(t, a), Encoding(t, b))
    decreases a, 2
  {
    var p, q := Encoding(t, a), Encoding(t, b);
    FirstOctet(t, a);
    FirstOctet(t, b);
    forall x: seq<byte>, y: seq<byte> | Ended(x) && Ended(y) && p + x == q + y ensures p == q {
      assert p[0] == (p + x)[0] == (q + y)[0] == q[0];
      match a {
        case Number(digits, _) => DigitsSeparate(p, q, x, y);
        case List(items) => ItemsRead(t, a, b, x, y);
        case Object(members) => MembersRead(t, a, b, x, y);
        case Str(text) =>
          assert t.literal(text) + x == t.literal(b.text) + y;
        case _ =>
      }
    }
  }

  lemma {:induction false} ItemAt(t: Tools, items: seq<Json>, i: nat)
    requires i < |items|
    ensures |ItemTexts(t, items)| == |items| && ItemTexts(t, items)[i] == Encoding(t, items[i])
  {
    ItemsLength(t, items);
    if i > 0 { ItemAt(t, items[1..], i - 1); }
  }

  lemma {:induction false} ItemsSeparate(t: Tools, a: Json, b: Json)
    requires Literals(t) && Proper(t, a) && Proper(t, b) && a.List? && b.List?
    ensures AllSeparate(ItemTexts(t, a.items), ItemTexts(t, b.items))
    decreases a, 0
  {
    var ps, qs := ItemTexts(t, a.items), ItemTexts(t, b.items);
    ItemsLength(t, a.items);
    ItemsLength(t, b.items);
    forall i, j | 0 <= i < |ps| && 0 <= j < |qs| ensures Separate(ps[i], qs[j]) {
      ItemAt(t, a.items, i);
      ItemAt(t, b.items, j);
      Reads(t, a.items[i], b.items[j]);
    }
    forall i | 0 <= i < |ps| ensures ps[i] != [] && !Ended(ps[i]) {
      ItemAt(t, a.items, i);
      FirstOctet(t, a.items[i]);
    }
    forall j | 0 <= j < |qs| ensures qs[j] != [] && !Ended(qs[j]) {
      ItemAt(t, b.items, j);
      FirstOctet(t, b.items[j]);
    }
  }

  lemma {:induction false} ItemsRead(t: Tools, a: Json, b: Json, x: seq<byte>, y: seq<byte>)
    requires Literals(t) && Proper(t, a) && Proper(t, b) && a.List? && b.List?
    requires Encoding(t, a) + x == Encoding(t, b) + y
    ensures ItemTexts(t, a.items) == ItemTexts(t, b.items)
    decreases a, 1
  {
    var ps, qs := ItemTexts(t, a.items), ItemTexts(t, b.items);
    assert Encode("]") == [LIST_END];
    assert (Encoding(t, a) + x)[1..] == Listed(ps) + ([LIST_END] + x);
    assert (Encoding(t, b) + y)[1..] == Listed(qs) + ([LIST_END] + y);
    ItemsSeparate(t, a, b);
    ListedRead(ps, qs, LIST_END, x, y);
  }

  // The printed members of an object, in the order of their keys.
  function Sorted(t: Tools, members: seq<Member>): seq<Printed> { SortKeys(PrintedMembers(t, members)) }

  // Each of them was printed of a member.
  lemma {:induction false} SortedAt(t: Tools, members: seq<Member>, k: nat) returns (i: nat)
    requires Distinct(members) && k < |Sorted(t, members)|
    ensures i < |members| && Sorted(t, members)[k] == PrintedMember(t, members[i])
  {
    PrintedDistinct(t, members);
    SortAscends(PrintedMembers(t, members));
    MembersLength(t, members);
    assert Sorted(t, members)[k] in PrintedMembers(t, members);
    i :| 0 <= i < |members| && PrintedMembers(t, members)[i] == Sorted(t, members)[k];
    PrintedAt(t, members, i);
  }

  lemma {:induction false} Regroup(a: seq<byte>, b: seq<byte>, c: seq<byte>, x: seq<byte>)
    ensures a + b + c + x == a + (b + c + x)
  {
  }

  lemma {:induction false} KeysFirst(t: Tools, a: string, b: string, x: seq<byte>, y: seq<byte>)
    requires Literals(t) && t.utf8(a) && t.utf8(b) && t.literal(a) + x == t.literal(b) + y
    ensures a == b && x == y
  {
    assert (t.literal(a) + x)[|t.literal(a)|..] == x && (t.literal(b) + y)[|t.literal(b)|..] == y;
  }

  lemma {:induction false} Behind(a: seq<byte>, v: seq<byte>, w: seq<byte>, x: seq<byte>, y: seq<byte>)
    requires a + v + x == a + w + y
    ensures v + x == w + y
  {
    assert (a + v + x)[|a|..] == v + x && (a + w + y)[|a|..] == w + y;
  }

  lemma {:induction false} MemberSeparate(t: Tools, m: Member, n: Member)
    requires Literals(t) && t.utf8(m.key) && t.utf8(n.key) && Separate(Encoding(t, m.value), Encoding(t, n.value))
    ensures Separate(PrintedMember(t, m).text, PrintedMember(t, n).text)
  {
    var p, q := PrintedMember(t, m).text, PrintedMember(t, n).text;
    var v, w := Encoding(t, m.value), Encoding(t, n.value);
    forall x: seq<byte>, y: seq<byte> | Ended(x) && Ended(y) && p + x == q + y ensures p == q {
      Regroup(t.literal(m.key), Encode(":"), v, x);
      Regroup(t.literal(n.key), Encode(":"), w, y);
      KeysFirst(t, m.key, n.key, Encode(":") + v + x, Encode(":") + w + y);
      Behind(Encode(":"), v, w, x, y);
      SeparateHere(v, w, x, y);
    }
  }

  lemma {:induction false} MembersSeparate(t: Tools, a: Json, b: Json)
    requires Literals(t) && Proper(t, a) && Proper(t, b) && a.Object? && b.Object?
    ensures AllSeparate(TextsOf(Sorted(t, a.members)), TextsOf(Sorted(t, b.members)))
    decreases a, 0
  {
    var ps, qs := TextsOf(Sorted(t, a.members)), TextsOf(Sorted(t, b.members));
    forall k, l | 0 <= k < |ps| && 0 <= l < |qs| ensures Separate(ps[k], qs[l]) {
      var i := SortedAt(t, a.members, k);
      var j := SortedAt(t, b.members, l);
      Reads(t, a.members[i].value, b.members[j].value);
      MemberSeparate(t, a.members[i], b.members[j]);
    }
    forall k | 0 <= k < |ps| ensures ps[k] != [] && !Ended(ps[k]) {
      var i := SortedAt(t, a.members, k);
      assert ps[k][0] == t.literal(a.members[i].key)[0];
    }
    forall l | 0 <= l < |qs| ensures qs[l] != [] && !Ended(qs[l]) {
      var j := SortedAt(t, b.members, l);
      assert qs[l][0] == t.literal(b.members[j].key)[0];
    }
  }

  lemma {:induction false} MembersRead(t: Tools, a: Json, b: Json, x: seq<byte>, y: seq<byte>)
    requires Literals(t) && Proper(t, a) && Proper(t, b) && a.Object? && b.Object?
    requires Encoding(t, a) + x == Encoding(t, b) + y
    ensures TextsOf(Sorted(t, a.members)) == TextsOf(Sorted(t, b.members))
    decreases a, 1
  {
    var ps, qs := TextsOf(Sorted(t, a.members)), TextsOf(Sorted(t, b.members));
    assert Encode("}") == [OBJECT_END];
    assert (Encoding(t, a) + x)[1..] == Listed(ps) + ([OBJECT_END] + x);
    assert (Encoding(t, b) + y)[1..] == Listed(qs) + ([OBJECT_END] + y);
    MembersSeparate(t, a, b);
    ListedRead(ps, qs, OBJECT_END, x, y);
  }

  // --- equal texts ----------------------------------------------------------------------------------------

  lemma {:induction false} TextsSame(t: Tools, a: Json, b: Json)
    requires Literals(t) && Proper(t, a) && Proper(t, b) && Same(a, b)
    ensures Encoding(t, a) == Encoding(t, b)
    decreases a
  {
    match a
    case List(items) =>
      ItemsLength(t, items);
      ItemsLength(t, b.items);
      forall i | 0 <= i < |items| ensures ItemTexts(t, items)[i] == ItemTexts(t, b.items)[i] {
        ItemAt(t, items, i);
        ItemAt(t, b.items, i);
        TextsSame(t, items[i], b.items[i]);
      }
      assert ItemTexts(t, items) == ItemTexts(t, b.items);
    case Object(members) =>
      forall m | m in PrintedMembers(t, members) ensures m in PrintedMembers(t, b.members) {
        var i := PrintedOf(t, members, m);
        assert members[i].key in Keys(b.members);
        var j :| 0 <= j < |b.members| && b.members[j].key == members[i].key;
        TextsSame(t, members[i].value, b.members[j].value);
        PrintedAt(t, b.members, j);
      }
      forall m | m in PrintedMembers(t, b.members) ensures m in PrintedMembers(t, members) {
        var j := PrintedOf(t, b.members, m);
        assert b.members[j].key in Keys(members);
        var i :| 0 <= i < |members| && members[i].key == b.members[j].key;
        TextsSame(t, members[i].value, b.members[j].value);
        PrintedAt(t, members, i);
      }
      SortedSame(t, members, b.members);
    case _ =>
  }

  lemma {:induction false} PrintedOf(t: Tools, members: seq<Member>, m: Printed) returns (i: nat)
    requires m in PrintedMembers(t, members)
    ensures i < |members| && m == PrintedMember(t, members[i])
  {
    MembersLength(t, members);
    i :| 0 <= i < |members| && PrintedMembers(t, members)[i] == m;
    PrintedAt(t, members, i);
  }

  lemma {:induction false} SortedSame(t: Tools, a: seq<Member>, b: seq<Member>)
    requires Distinct(a) && Distinct(b)
    requires forall m :: m in PrintedMembers(t, a) <==> m in PrintedMembers(t, b)
    ensures Sorted(t, a) == Sorted(t, b)
  {
    PrintedDistinct(t, a);
    PrintedDistinct(t, b);
    SortAscends(PrintedMembers(t, a));
    SortAscends(PrintedMembers(t, b));
    AscendingSame(Sorted(t, a), Sorted(t, b));
  }

  lemma {:induction false} SameTexts(t: Tools, a: Json, b: Json)
    requires Literals(t) && Proper(t, a) && Proper(t, b) && Encoding(t, a) == Encoding(t, b)
    ensures Same(a, b)
    decreases a
  {
    FirstOctet(t, a);
    FirstOctet(t, b);
    assert Encoding(t, a) + [] == Encoding(t, b) + [];
    match a
    case List(items) =>
      ItemsRead(t, a, b, [], []);
      ItemsLength(t, items);
      ItemsLength(t, b.items);
      forall i | 0 <= i < |items| ensures Same(items[i], b.items[i]) {
        ItemAt(t, items, i);
        ItemAt(t, b.items, i);
        SameTexts(t, items[i], b.items[i]);
      }
    case Object(members) =>
      MembersRead(t, a, b, [], []);
      MembersSame(t, members, b.members);
      MembersSame(t, b.members, members);
      forall i, j | 0 <= i < |members| && 0 <= j < |b.members| && members[i].key == b.members[j].key
        ensures Same(members[i].value, b.members[j].value)
      {
        var k := Counterpart(t, members, b.members, i);
        assert k == j;
        SameTexts(t, members[i].value, b.members[j].value);
      }
    case Str(text) => KeysFirst(t, text, b.text, [], []);
    case _ =>
  }

  // The member with the same printed text.
  lemma {:induction false} Counterpart(t: Tools, a: seq<Member>, b: seq<Member>, i: nat) returns (j: nat)
    requires Literals(t) && Distinct(a) && Distinct(b) && i < |a|
    requires (forall k | 0 <= k < |a| :: t.utf8(a[k].key)) && (forall k | 0 <= k < |b| :: t.utf8(b[k].key))
    requires TextsOf(Sorted(t, a)) == TextsOf(Sorted(t, b))
    ensures j < |b| && b[j].key == a[i].key && Encoding(t, b[j].value) == Encoding(t, a[i].value)
  {
    var k := SortedPlace(t, a, i);
    assert TextsOf(Sorted(t, a))[k] == TextsOf(Sorted(t, b))[k];
    j := SortedAt(t, b, k);
    PrintedRead(t, a[i], b[j]);
  }

  lemma {:induction false} SortedPlace(t: Tools, members: seq<Member>, i: nat) returns (k: nat)
    requires Distinct(members) && i < |members|
    ensures k < |Sorted(t, members)| && Sorted(t, members)[k] == PrintedMember(t, members[i])
  {
    PrintedDistinct(t, members);
    SortAscends(PrintedMembers(t, members));
    PrintedAt(t, members, i);
    assert PrintedMembers(t, members)[i] in PrintedMembers(t, members);
    k :| 0 <= k < |Sorted(t, members)| && Sorted(t, members)[k] == PrintedMember(t, members[i]);
  }

  lemma {:induction false} PrintedRead(t: Tools, m: Member, n: Member)
    requires Literals(t) && t.utf8(m.key) && t.utf8(n.key) && PrintedMember(t, m).text == PrintedMember(t, n).text
    ensures m.key == n.key && Encoding(t, m.value) == Encoding(t, n.value)
  {
    var v, w := Encoding(t, m.value), Encoding(t, n.value);
    Regroup(t.literal(m.key), Encode(":"), v, []);
    Regroup(t.literal(n.key), Encode(":"), w, []);
    KeysFirst(t, m.key, n.key, Encode(":") + v + [], Encode(":") + w + []);
    Behind(Encode(":"), v, w, [], []);
    assert v + [] == v && w + [] == w;
  }

  lemma {:induction false} MembersSame(t: Tools, a: seq<Member>, b: seq<Member>)
    requires Literals(t) && Distinct(a) && Distinct(b)
    requires (forall k | 0 <= k < |a| :: t.utf8(a[k].key)) && (forall k | 0 <= k < |b| :: t.utf8(b[k].key))
    requires TextsOf(Sorted(t, a)) == TextsOf(Sorted(t, b))
    ensures Keys(a) <= Keys(b)
  {
    forall key | key in Keys(a) ensures key in Keys(b) {
      var i :| 0 <= i < |a| && a[i].key == key;
      var j := Counterpart(t, a, b, i);
    }
  }

  /** Two values have the same canonical text exactly if they differ at most in the order of members. */
  lemma {:induction false} TextExact(t: Tools, a: Json, b: Json)
    requires Literals(t) && Proper(t, a) && Proper(t, b)
    ensures Encoding(t, a) == Encoding(t, b) <==> Same(a, b)
  {
    if Encoding(t, a) == Encoding(t, b) { SameTexts(t, a, b); }
    if Same(a, b) { TextsSame(t, a, b); }
  }

  // --- such literals exist --------------------------------------------------------------------------------

  predicate Bare(text: string) { Ascii(text) && '"' !in text }

  function BareLiteral(text: string): seq<byte> {
    if Bare(text) then [QUOTE] + Encode(text) + [QUOTE] else [QUOTE, QUOTE]
  }

  lemma {:induction false} BareRead(a: string, b: string, x: seq<byte>, y: seq<byte>)
    requires Bare(a) && Bare(b) && BareLiteral(a) + x == BareLiteral(b) + y
    ensures a == b
  {
    var p, q := Encode(a) + ([QUOTE] + x), Encode(b) + ([QUOTE] + y);
    assert (BareLiteral(a) + x)[1..] == p && (BareLiteral(b) + y)[1..] == q;
    NoQuote(a);
    NoQuote(b);
    PartAt(Encode(a), [QUOTE] + x, |a|);
    PartAt(Encode(b), [QUOTE] + y, |a|);
    PartAt(Encode(a), [QUOTE] + x, |b|);
    PartAt(Encode(b), [QUOTE] + y, |b|);
    assert |a| == |b|;
    assert p[..|a|] == Encode(a) && q[..|b|] == Encode(b);
    forall i | 0 <= i < |a| ensures a[i] == b[i] { assert Encode(a)[i] == Encode(b)[i]; }
  }

  lemma {:induction false} NoQuote(a: string)
    requires Bare(a)
    ensures forall i | 0 <= i < |a| :: Encode(a)[i] != QUOTE
  {
    forall i | 0 <= i < |a| ensures a[i] != '"' { assert a[i] in a; }
  }

  /** Printing strings of plain ASCII between quotes meets all that is assumed. */
  lemma {:induction false} BareTools(t: Tools)
    requires t.literal == BareLiteral && t.utf8 == Bare
    ensures ToolsOk(t) && Literals(t)
  {
    forall a: string, b: string, x: seq<byte>, y: seq<byte>
      | t.utf8(a) && t.utf8(b) && t.literal(a) + x == t.literal(b) + y ensures a == b
    {
      BareRead(a, b, x, y);
    }
  }
}
