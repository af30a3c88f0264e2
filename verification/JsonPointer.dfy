/** Local references as JSON pointers (RFC 6901): `resolve_local_reference`. */
module JsonPointer {
  import opened Results
  import opened ExportFormat
  import opened ExportPaths

  datatype Json = Object(members: map<string, Json>) | Array(items: seq<Json>) | Scalar(text: string)

  datatype ReferenceError = NotLocal | Unresolved

  // --- one reference token ----------------------------------------------------------

  /** `text.replace("~" + code, plain)` */
  function Replace(text: string, code: char, plain: char): string
    decreases |text|
  {
    if |text| < 2 then text
    else if text[0] == '~' && text[1] == code then [plain] + Replace(text[2..], code, plain)
    else [text[0]] + Replace(text[1..], code, plain)
  }

  function Decode(token: string): string {
    Replace(Replace(token, '1', '/'), '0', '~')
  }

  /** Section 3 of RFC 6901: `~` becomes `~0` and `/` becomes `~1`. */
  function Escape(key: string): (token: string)
    ensures '/' !in token
  {
    if key == "" then ""
    else (if key[0] == '~' then "~0" else if key[0] == '/' then "~1" else [key[0]]) + Escape(key[1..])
  }

  // Between the two replacements.
  function Tildes(key: string): string {
    if key == "" then "" else (if key[0] == '~' then "~0" else [key[0]]) + Tildes(key[1..])
  }

  lemma {:induction false} ReplaceCons(c: char, rest: string, code: char, plain: char)
    requires c != '~'
    ensures Replace([c] + rest, code, plain) == [c] + Replace(rest, code, plain)
  {
    assert ([c] + rest)[1..] == rest;
    if rest == "" { assert [c] + rest == [c] && [c] + Replace(rest, code, plain) == [c]; }
  }

  lemma {:induction false} ReplaceCode(rest: string, code: char, plain: char)
    ensures Replace(['~', code] + rest, code, plain) == [plain] + Replace(rest, code, plain)
  {
    assert (['~', code] + rest)[2..] == rest;
  }

  lemma {:induction false} ReplaceOther(other: char, rest: string, code: char, plain: char)
    requires other != code && other != '~'
    ensures Replace(['~', other] + rest, code, plain) == ['~', other] + Replace(rest, code, plain)
  {
    var text := ['~', other] + rest;
    assert text[1..] == [other] + rest;
    ReplaceCons(other, rest, code, plain);
    assert ['~'] + ([other] + Replace(rest, code, plain)) == ['~', other] + Replace(rest, code, plain);
  }

  lemma {:induction false} EscapeSlashes(key: string)
    ensures Replace(Escape(key), '1', '/') == Tildes(key)
  {
    if key != "" {
      EscapeSlashes(key[1..]);
      var rest := Escape(key[1..]);
      if key[0] == '~' {
        ReplaceOther('0', rest, '1', '/');
      } else if key[0] == '/' {
        ReplaceCode(rest, '1', '/');
      } else {
        ReplaceCons(key[0], rest, '1', '/');
      }
    }
  }

  lemma {:induction false} TildesBack(key: string)
    ensures Replace(Tildes(key), '0', '~') == key
  {
    if key != "" {
      TildesBack(key[1..]);
      if key[0] == '~' {
        ReplaceCode(Tildes(key[1..]), '0', '~');
      } else {
        ReplaceCons(key[0], Tildes(key[1..]), '0', '~');
      }
    }
  }

  /** Two successive replacements undo the escaping, in this order. */
  lemma {:induction false} DecodeEscape(key: string)
    ensures Decode(Escape(key)) == key
  {
    EscapeSlashes(key);
    TildesBack(key);
  }

  /** In the other order they do not: the key `~1` would come back as `/`. */
  lemma {:induction false} OrderMatters()
    ensures Replace(Replace(Escape("~1"), '0', '~'), '1', '/') != "~1"
  {
    assert "~1"[1..] == "1" && "1"[1..] == "";
    assert Escape("1") == "1";
    assert Escape("~1") == "~0" + "1";
    ReplaceCode("1", '0', '~');
    assert ['~', '0'] + "1" == "~0" + "1";
    assert Replace(Escape("~1"), '0', '~') == "~1";
    ReplaceCode("", '1', '/');
    assert ['~', '1'] + "" == "~1";
  }

  // --- whole references -----------------------------------------------------------------

  /** The value at a path of keys through nested objects. */
  function Walk(v: Json, keys: seq<string>): Option<Json>
    decreases |keys|
  {
    if keys == [] then Some(v)
    else if v.Object? && keys[0] in v.members then Walk(v.members[keys[0]], keys[1..])
    else None
  }

  // These values lie one below the other along the keys.
  ghost predicate Chain(values: seq<Json>, keys: seq<string>) {
    && |values| == |keys| + 1
    && forall i | 0 <= i < |keys| ::
         values[i].Object? && keys[i] in values[i].members && values[i].members[keys[i]] == values[i + 1]
  }

  /** A value is at a path exactly if a chain of members leads to it. */
  lemma {:induction false} WalkExact(v: Json, keys: seq<string>, end: Json)
    ensures Walk(v, keys) == Some(end) <==>
              exists values :: Chain(values, keys) && values[0] == v && values[|keys|] == end
    decreases |keys|
  {
    if Walk(v, keys) == Some(end) {
      var values := WalkChain(v, keys, end);
    }
    forall values | Chain(values, keys) && values[0] == v && values[|keys|] == end ensures Walk(v, keys) == Some(end) {
      ChainWalk(values, keys);
    }
  }

  lemma {:induction false} WalkChain(v: Json, keys: seq<string>, end: Json) returns (values: seq<Json>)
    requires Walk(v, keys) == Some(end)
    ensures Chain(values, keys) && values[0] == v && values[|keys|] == end
    decreases |keys|
  {
    if keys == [] {
      values := [v];
    } else {
      var rest := WalkChain(v.members[keys[0]], keys[1..], end);
      values := [v] + rest;
      forall i | 0 <= i < |keys| ensures
        values[i].Object? && keys[i] in values[i].members && values[i].members[keys[i]] == values[i + 1]
      {
        if i > 0 { assert keys[i] == keys[1..][i - 1] && values[i] == rest[i - 1]; }
      }
    }
  }

  lemma {:induction false} ChainWalk(values: seq<Json>, keys: seq<string>)
    requires Chain(values, keys)
    ensures Walk(values[0], keys) == Some(values[|keys|])
    decreases |keys|
  {
    if keys != [] {
      forall i | 0 <= i < |keys| - 1 ensures
        var rest, later := values[1..], keys[1..];
        rest[i].Object? && later[i] in rest[i].members && rest[i].members[later[i]] == rest[i + 1]
      {
        assert values[i + 1].Object? && keys[i + 1] in values[i + 1].members;
      }
      ChainWalk(values[1..], keys[1..]);
    }
  }

  function Mapped(f: string -> string, s: seq<string>): (r: seq<string>)
    ensures |r| == |s| && forall i | 0 <= i < |s| :: r[i] == f(s[i])
  {
    seq(|s|, i requires 0 <= i < |s| => f(s[i]))
  }

  /** The pointer to a path, as a reference into the same document. */
  function Pointer(keys: seq<string>): string
    requires keys != []
  {
    "#/" + Join(Mapped(Escape, keys))
  }

  function KeysOf(reference: string): seq<string>
    requires "#/" <= reference
  {
    Mapped(Decode, Split(reference[2..]))
  }

  lemma {:induction false} KeysPointer(keys: seq<string>)
    requires keys != []
    ensures KeysOf(Pointer(keys)) == keys
  {
    var tokens := Mapped(Escape, keys);
    assert Pointer(keys)[2..] == Join(tokens);
    SplitJoin(tokens);
    forall i | 0 <= i < |keys| ensures Mapped(Decode, tokens)[i] == keys[i] {
      DecodeEscape(keys[i]);
    }
  }

  /** What a reference stands for in a document. */
  function Resolve(document: Json, reference: string): Result<Json, ReferenceError> {
    if !("#/" <= reference) then Err(NotLocal)
    else
      match Walk(document, KeysOf(reference))
      case None => Err(Unresolved)
      case Some(v) => Ok(v)
  }

  method ResolveLocalReference(document: Json, reference: string) returns (r: Result<Json, ReferenceError>)
    ensures r == Resolve(document, reference)
  {
    if !("#/" <= reference) {
      return Err(NotLocal);
    }
    var rawParts := Split(reference[2..]);
    ghost var keys := KeysOf(reference);
    var current := document;
    for i := 0 to |rawParts|
      invariant Walk(document, keys) == Walk(current, keys[i..])
    {
      var part := Decode(rawParts[i]);
      assert keys[i..][0] == part && keys[i..][1..] == keys[i + 1..];
      if !current.Object? || part !in current.members {
        return Err(Unresolved);
      }
      current := current.members[part];
    }
    return Ok(current);
  }

  /** The pointer printed for a nonempty path resolves to the value at that path, if there is one. */
  lemma {:induction false} ResolvePointer(document: Json, keys: seq<string>, v: Json)
    requires keys != []
    ensures Resolve(document, Pointer(keys)) == Ok(v) <==> Walk(document, keys) == Some(v)
    ensures Resolve(document, Pointer(keys)) == Err(Unresolved) <==> Walk(document, keys) == None
  {
    KeysPointer(keys);
  }
}
