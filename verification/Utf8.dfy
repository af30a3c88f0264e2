/** UTF-8 as strict decoding sees it: the octet sequences of section 4 of RFC 3629. */
module Utf8 {

  type byte = b: int | 0 <= b < 256

  /** What `byte & 0xC0 == 0x80` tests. */
  predicate Cont(b: byte) { 0x80 <= b < 0xC0 }

  predicate In(b: byte, low: int, high: int) { low <= b <= high }

  // Length of the first encoded character, or 0 where strict decoding fails.
  function CharLen(s: seq<byte>): (n: nat)
    ensures n <= 4 && n <= |s|
    ensures n > 0 ==> !Cont(s[0])
    ensures forall i | 1 <= i < n :: Cont(s[i])
  {
    if |s| == 0 then 0
    else if s[0] < 0x80 then 1
    else if |s| < 2 || !Cont(s[1]) then 0
    else if In(s[0], 0xC2, 0xDF) then 2
    else if |s| < 3 || !Cont(s[2]) then 0
    else if
      || (s[0] == 0xE0 && s[1] >= 0xA0)
      || In(s[0], 0xE1, 0xEC)
      || (s[0] == 0xED && s[1] <= 0x9F)
      || In(s[0], 0xEE, 0xEF) then 3
    else if |s| < 4 || !Cont(s[3]) then 0
    else if
      || (s[0] == 0xF0 && s[1] >= 0x90)
      || In(s[0], 0xF1, 0xF3)
      || (s[0] == 0xF4 && s[1] <= 0x8F) then 4
    else 0
  }

  predicate Valid(s: seq<byte>) { Text(CharLen, s) }

  /** Characters one after the other, where `len` measures the first one. */
  predicate Text(len: seq<byte> -> nat, s: seq<byte>)
    decreases |s|
  {
    s == [] || (0 < len(s) <= |s| && Text(len, s[len(s)..]))
  }

  // Of at most four octets, the first is no continuation and the others are.
  ghost predicate Octets(len: seq<byte> -> nat, s: seq<byte>) {
    && len(s) <= 4 && len(s) <= |s|
    && (forall i | 0 <= i < len(s) :: Cont(s[i]) <==> i > 0)
    && (|s| > 0 && s[0] < 0x80 ==> len(s) == 1)
  }

  // A character stands alone, whatever follows it.
  ghost predicate Alone(len: seq<byte> -> nat, s: seq<byte>, i: nat) {
    0 < len(s) <= i <= |s| ==> len(s[..i]) == len(s)
  }

  ghost predicate Extends(len: seq<byte> -> nat, s: seq<byte>, t: seq<byte>) { len(s) > 0 ==> len(s + t) == len(s) }

  // What the results below need of an encoding.
  ghost predicate Coding(len: seq<byte> -> nat) {
    && (forall s: seq<byte> :: Octets(len, s))
    && (forall s: seq<byte>, i: nat :: Alone(len, s, i))
    && (forall s: seq<byte>, t: seq<byte> :: Extends(len, s, t))
  }

  lemma {:induction false} CharLenCoding()
    ensures Coding(CharLen)
  {
    forall s: seq<byte>, i: nat ensures Alone(CharLen, s, i) {
      if 0 < CharLen(s) <= i <= |s| { CharLenPrefix(s, i); }
    }
    forall s: seq<byte>, t: seq<byte> ensures Extends(CharLen, s, t) {
      if CharLen(s) > 0 { CharLenExtend(s, t); }
    }
  }

  lemma {:induction false} CharLenPrefix(s: seq<byte>, i: nat)
    requires CharLen(s) <= i <= |s| && CharLen(s) > 0
    ensures CharLen(s[..i]) == CharLen(s)
  {
  }

  lemma {:induction false} CharLenExtend(s: seq<byte>, t: seq<byte>)
    requires CharLen(s) > 0
    ensures CharLen(s + t) == CharLen(s)
  {
  }

  /** A position where a character starts, or the end. */
  predicate Boundary(s: seq<byte>, i: nat) {
    i == |s| || (i < |s| && !Cont(s[i]))
  }

  lemma {:induction false} TextSplit(len: seq<byte> -> nat, s: seq<byte>, i: nat)
    requires Coding(len) && Text(len, s) && i <= |s| && Boundary(s, i)
    ensures Text(len, s[..i]) && Text(len, s[i..])
    decreases |s|
  {
    if i == 0 {
      assert s[..0] == [] && s[0..] == s;
    } else {
      var n := len(s);
      assert Octets(len, s) && Alone(len, s, i);
      assert i >= n;
      TextSplit(len, s[n..], i - n);
      assert s[..i][n..] == s[n..][..i - n];
      assert s[n..][i - n..] == s[i..];
    }
  }

  lemma {:induction false} TextConcat(len: seq<byte> -> nat, s: seq<byte>, t: seq<byte>)
    requires Coding(len) && Text(len, s) && Text(len, t)
    ensures Text(len, s + t)
    decreases |s|
  {
    if s == [] {
      assert s + t == t;
    } else {
      var n := len(s);
      assert Extends(len, s, t);
      TextConcat(len, s[n..], t);
      assert (s + t)[n..] == s[n..] + t;
    }
  }

  lemma {:induction false} TextBoundary(len: seq<byte> -> nat, s: seq<byte>, i: nat)
    requires Coding(len) && Text(len, s) && i <= |s|
    ensures exists j :: i - 3 <= j <= i && 0 <= j && Boundary(s, j)
    decreases |s|
  {
    if s == [] || Boundary(s, i) {
      assert Boundary(s, i);
    } else {
      var n := len(s);
      assert Octets(len, s);
      if i < n {
        assert Boundary(s, 0);
      } else {
        TextBoundary(len, s[n..], i - n);
        var j :| i - n - 3 <= j <= i - n && 0 <= j && Boundary(s[n..], j);
        assert Boundary(s, j + n);
      }
    }
  }

  lemma {:induction false} TextSlice(len: seq<byte> -> nat, s: seq<byte>, low: nat, high: nat)
    requires Coding(len) && Text(len, s) && low <= high <= |s| && Boundary(s, low) && Boundary(s, high)
    ensures Text(len, s[low..high])
  {
    TextSplit(len, s, high);
    var init := s[..high];
    TextSplit(len, init, low);
    assert init[low..] == s[low..high];
  }

  lemma {:induction false} TextAfter(len: seq<byte> -> nat, s: seq<byte>, i: nat)
    requires Coding(len) && Text(len, s) && i < |s| && s[i] < 0x80
    ensures Boundary(s, i + 1)
    decreases |s|
  {
    var n := len(s);
    assert Octets(len, s);
    if i >= n {
      TextAfter(len, s[n..], i - n);
    } else if |s| > 1 {
      assert Octets(len, s[1..]);
    }
  }

  /** Cutting valid text at a boundary leaves two valid texts. */
  lemma {:induction false} ValidSplit(s: seq<byte>, i: nat)
    requires Valid(s) && i <= |s| && Boundary(s, i)
    ensures Valid(s[..i]) && Valid(s[i..])
  {
    CharLenCoding();
    TextSplit(CharLen, s, i);
  }

  lemma {:induction false} ValidConcat(s: seq<byte>, t: seq<byte>)
    requires Valid(s) && Valid(t)
    ensures Valid(s + t)
  {
    CharLenCoding();
    TextConcat(CharLen, s, t);
  }

  /** No character is longer than four octets: a boundary lies at most three back. */
  lemma {:induction false} NearbyBoundary(s: seq<byte>, i: nat)
    requires Valid(s) && i <= |s|
    ensures exists j :: i - 3 <= j <= i && 0 <= j && Boundary(s, j)
  {
    CharLenCoding();
    TextBoundary(CharLen, s, i);
  }

  lemma {:induction false} ValidSlice(s: seq<byte>, low: nat, high: nat)
    requires Valid(s) && low <= high <= |s| && Boundary(s, low) && Boundary(s, high)
    ensures Valid(s[low..high])
  {
    CharLenCoding();
    TextSlice(CharLen, s, low, high);
  }

  /** Behind an ASCII character, a character starts. */
  lemma {:induction false} AfterAscii(s: seq<byte>, i: nat)
    requires Valid(s) && i < |s| && s[i] < 0x80
    ensures Boundary(s, i + 1)
  {
    CharLenCoding();
    TextAfter(CharLen, s, i);
  }

  // --- the encoder ----------------------------------------------------------

  /** Unicode scalar values: code points other than surrogates. */
  predicate Scalar(n: nat) { n < 0xD800 || 0xE000 <= n <= 0x10FFFF }

  /** One character number in octets, after section 3 of RFC 3629. */
  function EncodeScalar(n: nat): (s: seq<byte>)
    requires Scalar(n)
  {
    if n <= 0x7F then [n]
    else if n <= 0x7FF then [0xC0 + n / 0x40, 0x80 + n % 0x40]
    else if n <= 0xFFFF then [0xE0 + n / 0x1000, 0x80 + n / 0x40 % 0x40, 0x80 + n % 0x40]
    else [0xF0 + n / 0x4_0000, 0x80 + n / 0x1000 % 0x40, 0x80 + n / 0x40 % 0x40, 0x80 + n % 0x40]
  }

  predicate Scalars(text: seq<nat>) { forall i | 0 <= i < |text| :: Scalar(text[i]) }

  function EncodeScalars(text: seq<nat>): seq<byte>
    requires Scalars(text)
  {
    if text == [] then [] else EncodeScalar(text[0]) + EncodeScalars(text[1..])
  }

  lemma {:induction false} CharLenEncoded(n: nat)
    requires Scalar(n)
    ensures CharLen(EncodeScalar(n)) == |EncodeScalar(n)| > 0
  {
  }

  // What the continuation bits of an octet add.
  lemma {:induction false} Bits(high: nat, low: nat)
    requires low < 0x40
    ensures (high * 0x40 + low) / 0x40 == high && (high * 0x40 + low) % 0x40 == low
  {
  }

  // The character that the first octets stand for.
  lemma {:induction false} Decoded(s: seq<byte>) returns (n: nat)
    requires CharLen(s) > 0
    ensures Scalar(n) && EncodeScalar(n) == s[..CharLen(s)]
  {
    var a: int := s[0];
    var b: int := if CharLen(s) > 1 then s[1] - 0x80 else 0;
    var c: int := if CharLen(s) > 2 then s[2] - 0x80 else 0;
    if CharLen(s) == 1 {
      n := a;
    } else if CharLen(s) == 2 {
      n := (a - 0xC0) * 0x40 + b;
      Bits(a - 0xC0, b);
    } else if CharLen(s) == 3 {
      var high := (a - 0xE0) * 0x40 + b;
      Bits(a - 0xE0, b);
      n := high * 0x40 + c;
      Bits(high, c);
      assert n / 0x1000 == high / 0x40;
    } else {
      n := Decoded4(s);
    }
  }

  lemma {:induction false} Decoded4(s: seq<byte>) returns (n: nat)
    requires CharLen(s) == 4
    ensures Scalar(n) && EncodeScalar(n) == s[..4]
  {
    var a: int, b: int, c: int, d: int := s[0] - 0xF0, s[1] - 0x80, s[2] - 0x80, s[3] - 0x80;
    var high := a * 0x40 + b;
    Bits(a, b);
    var more := high * 0x40 + c;
    Bits(high, c);
    n := more * 0x40 + d;
    Bits(more, d);
    assert n / 0x1000 == high && n / 0x4_0000 == high / 0x40;
  }

  lemma {:induction false} EncodedValid(text: seq<nat>)
    requires Scalars(text)
    ensures Valid(EncodeScalars(text))
  {
    if text != [] {
      var first := EncodeScalar(text[0]);
      CharLenEncoded(text[0]);
      assert first[|first|..] == [];
      EncodedValid(text[1..]);
      ValidConcat(first, EncodeScalars(text[1..]));
    }
  }

  lemma {:induction false} ValidEncoded(s: seq<byte>) returns (text: seq<nat>)
    requires Valid(s)
    ensures Scalars(text) && EncodeScalars(text) == s
    decreases |s|
  {
    if s == [] {
      text := [];
    } else {
      var n := Decoded(s);
      var rest := ValidEncoded(s[CharLen(s)..]);
      text := [n] + rest;
      assert text[1..] == rest;
    }
  }

  /** Strict decoding accepts exactly the encodings of sequences of scalar values. */
  lemma {:induction false} ValidExact(s: seq<byte>)
    ensures Valid(s) <==> exists text :: Scalars(text) && EncodeScalars(text) == s
  {
    if Valid(s) {
      var text := ValidEncoded(s);
    }
    forall text | Scalars(text) && EncodeScalars(text) == s ensures Valid(s) {
      EncodedValid(text);
    }
  }

  // --- ASCII text -----------------------------------------------------------

  predicate Ascii(t: string) { forall i | 0 <= i < |t| :: t[i] < 128 as char }

  function Encode(t: string): (s: seq<byte>)
    requires Ascii(t)
    ensures |s| == |t|
    ensures forall i | 0 <= i < |t| :: s[i] == t[i] as int
  {
    seq<byte>(|t|, i requires 0 <= i < |t| => t[i] as int)
  }

  lemma {:induction false} AsciiValid(s: seq<byte>)
    requires forall i | 0 <= i < |s| :: s[i] < 128
    ensures Valid(s)
    decreases |s|
  {
    if s != [] { AsciiValid(s[1..]); }
  }

  lemma {:induction false} EncodeValid(t: string)
    requires Ascii(t)
    ensures Valid(Encode(t))
  {
    AsciiValid(Encode(t));
  }
}
