/** JSON values and JSON Pointer (RFC 6901), as `crates/artifact` uses them. */
module JsonPointer {
  import opened Wrappers
  import opened Strings

  datatype Field = Field(name: string, value: Value)

  /** Objects list their fields in the map's order; a number is an integer or not. */
  datatype Value =
    | NullValue
    | BoolValue(b: bool)
    | IntValue(n: int)
    | OtherNumber(text: string)
    | StringValue(s: string)
    | ArrayValue(items: seq<Value>)
    | ObjectValue(fields: seq<Field>)

  function Children(v: Value): (children: seq<Value>)
    ensures forall i | 0 <= i < |children| :: children[i] < v
  {
    match v
    case ArrayValue(items) => items
    case ObjectValue(fields) => seq(|fields|, i requires 0 <= i < |fields| => fields[i].value)
    case _ => []
  }

  predicate DistinctNames(fields: seq<Field>) {
    forall i, j | 0 <= i < j < |fields| :: fields[i].name != fields[j].name
  }

  /** No object anywhere in the value repeats a key. */
  predicate DistinctKeys(v: Value) {
    (v.ObjectValue? ==> DistinctNames(v.fields)) && forall i | 0 <= i < |Children(v)| :: DistinctKeys(Children(v)[i])
  }

  function FindField(fields: seq<Field>, name: string): (r: Option<nat>)
    ensures r.Some? ==> r.value < |fields| && fields[r.value].name == name
    ensures r.None? ==> forall f <- fields :: f.name != name
  {
    if fields == [] then None
    else if fields[0].name == name then Some(0)
    else
      var rest := FindField(fields[1..], name);
      if rest.Some? then Some(rest.value + 1) else None
  }

  // --------------------------------------------------------------- evaluation

  /** An array index of section 4: digits without a leading zero. */
  predicate IsIndex(token: string) {
    token != "" && (forall c <- token :: IsDigit(c)) && (token[0] == '0' ==> |token| == 1)
  }

  /** The value one reference token leads to. */
  function Follow(v: Value, token: string): (r: Option<Value>)
    ensures r.Some? ==> r.value < v
  {
    match v
    case ObjectValue(fields) =>
      var i := FindField(fields, token);
      if i.Some? then Some(fields[i.value].value) else None
    case ArrayValue(items) =>
      if IsIndex(token) && DecimalValue(token) < |items| then Some(items[DecimalValue(token)]) else None
    case _ => None
  }

  function Walk(v: Value, tokens: seq<string>): Option<Value>
    decreases |tokens|
  {
    if tokens == [] then Some(v)
    else
      var next := Follow(v, tokens[0]);
      if next.None? then None else Walk(next.value, tokens[1..])
  }

  /** Evaluation of section 4: `~1` before `~0`. */
  function Unescape(token: string): string { ReplacePair(ReplacePair(token, '~', '1', "/"), '~', '0', "~") }

  function Unescaped(parts: seq<string>): (tokens: seq<string>)
    ensures |tokens| == |parts| && forall i | 0 <= i < |parts| :: tokens[i] == Unescape(parts[i])
  {
    seq(|parts|, i requires 0 <= i < |parts| => Unescape(parts[i]))
  }

  function Tokens(pointer: string): seq<string> { Unescaped(Split(pointer, '/')[1..]) }

  function Evaluate(root: Value, pointer: string): Option<Value> { Walk(root, Tokens(pointer)) }

  // ------------------------------------------------------------------ syntax

  /** Every tilde is followed by 0 or 1. */
  predicate EscapesOk(token: string) {
    if token == "" then true
    else if token[0] == '~' then |token| >= 2 && token[1] in {'0', '1'} && EscapesOk(token[2..])
    else EscapesOk(token[1..])
  }

  /** Section 3: empty, or tokens that each follow a slash and are well escaped. */
  predicate PointerSyntax(pointer: string) {
    (pointer == "" || pointer[0] == '/') && forall part <- Split(pointer, '/')[1..] :: EscapesOk(part)
  }

  const MAX_POINTER_BYTES := 1024

  /** The scan of one token. */
  method ScanToken(token: string) returns (ok: bool)
    ensures ok == EscapesOk(token)
  {
    var index := 0;
    while index < |token|
      invariant 0 <= index <= |token|
      invariant EscapesOk(token) == EscapesOk(token[index..])
    {
      if token[index] == '~' {
        if index + 1 >= |token| || !(token[index + 1] in {'0', '1'}) {
          return false;
        }
        assert token[index..][2..] == token[index + 2..];
        index := index + 2;
      } else {
        assert token[index..][1..] == token[index + 1..];
        index := index + 1;
      }
    }
    return true;
  }

  method ValidateJsonPointer(pointer: string) returns (ok: bool)
    ensures ok <==> Utf8Length(pointer) <= MAX_POINTER_BYTES && PointerSyntax(pointer)
  {
    if Utf8Length(pointer) > MAX_POINTER_BYTES || (pointer != "" && pointer[0] != '/') {
      return false;
    }
    var parts := Split(pointer, '/')[1..];
    for i := 0 to |parts|
      invariant forall k | 0 <= k < i :: EscapesOk(parts[k])
    {
      var good := ScanToken(parts[i]);
      if !good {
        assert parts[i] in parts;
        return false;
      }
    }
    return true;
  }

  // --------------------------------------------------------------- rendering

  function Escape(name: string): string { ReplaceChar(ReplaceChar(name, '~', "~0"), '/', "~1") }

  function ChildPath(parent: string, name: string): string { parent + "/" + Escape(name) }

  function Render(tokens: seq<string>): string {
    if tokens == [] then "" else "/" + Escape(tokens[0]) + Render(tokens[1..])
  }

  lemma {:induction false} RenderAppend(tokens: seq<string>, name: string)
    ensures Render(tokens + [name]) == ChildPath(Render(tokens), name)
  {
    if tokens == [] {
      assert tokens + [name] == [name] && [name][1..] == [];
      assert Render([name]) == "/" + Escape(name) + "";
    } else {
      assert (tokens + [name])[1..] == tokens[1..] + [name];
      RenderAppend(tokens[1..], name);
    }
  }

  /** One character of an escaped token. */
  function EscapeOne(c: char): string { if c == '~' then "~0" else if c == '/' then "~1" else [c] }

  lemma EscapeStep(name: string)
    requires name != ""
    ensures Escape(name) == EscapeOne(name[0]) + Escape(name[1..])
  {
    var c := name[0];
    var first := if c == '~' then "~0" else [c];
    ReplaceCharConcat(first, ReplaceChar(name[1..], '~', "~0"), '/', "~1");
    if c == '~' {
      assert "~0" == ['~'] + "0" && "0"[1..] == "" && "~0"[1..] == "0";
      assert ReplaceChar("0", '/', "~1") == "0";
      assert ReplaceChar("~0", '/', "~1") == "~0";
    } else {
      assert [c][1..] == "";
      assert ReplaceChar([c], '/', "~1") == EscapeOne(c);
    }
  }

  lemma {:induction false} EscapeFreeOfSlash(name: string)
    ensures Free(Escape(name), '/')
  {
    if name != "" {
      EscapeStep(name);
      EscapeFreeOfSlash(name[1..]);
    }
  }

  lemma {:induction false} EscapeIsWellEscaped(name: string)
    ensures EscapesOk(Escape(name))
  {
    if name != "" {
      EscapeStep(name);
      EscapeIsWellEscaped(name[1..]);
      var rest := Escape(name[1..]);
      if name[0] == '~' {
        assert ("~0" + rest)[2..] == rest;
      } else if name[0] == '/' {
        assert ("~1" + rest)[2..] == rest;
      } else {
        assert ([name[0]] + rest)[1..] == rest;
      }
    }
  }

  lemma PairAbsent(c: char, rest: string)
    requires c != '~'
    ensures ReplacePair([c] + rest, '~', '1', "/") == [c] + ReplacePair(rest, '~', '1', "/")
  {
    assert ([c] + rest)[1..] == rest;
  }

  lemma PairOther(rest: string)
    ensures ReplacePair("~0" + rest, '~', '1', "/") == "~0" + ReplacePair(rest, '~', '1', "/")
  {
    assert ("~0" + rest)[1..] == ['0'] + rest;
    PairAbsent('0', rest);
    assert ['~'] + (['0'] + ReplacePair(rest, '~', '1', "/")) == "~0" + ReplacePair(rest, '~', '1', "/");
  }

  lemma PairPresent(rest: string)
    ensures ReplacePair("~1" + rest, '~', '1', "/") == "/" + ReplacePair(rest, '~', '1', "/")
  {
    assert ("~1" + rest)[2..] == rest;
  }

  /** The first pass of unescaping gives the name with its tildes still escaped. */
  lemma {:induction false} FirstPass(name: string)
    ensures ReplacePair(Escape(name), '~', '1', "/") == ReplaceChar(name, '~', "~0")
  {
    if name != "" {
      EscapeStep(name);
      FirstPass(name[1..]);
      var rest := Escape(name[1..]);
      if name[0] == '~' {
        PairOther(rest);
      } else if name[0] == '/' {
        PairPresent(rest);
      } else {
        PairAbsent(name[0], rest);
      }
    }
  }

  lemma {:induction false} SecondPass(name: string)
    ensures ReplacePair(ReplaceChar(name, '~', "~0"), '~', '0', "~") == name
  {
    if name != "" {
      SecondPass(name[1..]);
      var rest := ReplaceChar(name[1..], '~', "~0");
      if name[0] == '~' {
        assert ("~0" + rest)[2..] == rest;
      } else {
        assert ([name[0]] + rest)[1..] == rest;
      }
      assert [name[0]] + name[1..] == name;
    }
  }

  /** Unescaping inverts the escaping of every name. */
  lemma UnescapeInvertsEscape(name: string)
    ensures Unescape(Escape(name)) == name
  {
    FirstPass(name);
    SecondPass(name);
  }

  lemma {:induction false} SplitRendered(tokens: seq<string>)
    ensures var parts := Split(Render(tokens), '/');
      |parts| == |tokens| + 1 && parts[0] == "" && forall i | 0 <= i < |tokens| :: parts[i + 1] == Escape(tokens[i])
  {
    if tokens != [] {
      SplitRendered(tokens[1..]);
      EscapeFreeOfSlash(tokens[0]);
      var rest := Render(tokens[1..]);
      assert Render(tokens) == "" + ['/'] + (Escape(tokens[0]) + rest);
      SplitAtSeparator("", Escape(tokens[0]) + rest, '/');
      SplitAfterPrefix(Escape(tokens[0]), rest);
    }
  }

  /** A slash-free prefix joins the first part. */
  lemma {:induction false} SplitAfterPrefix(prefix: string, rest: string)
    requires Free(prefix, '/')
    ensures Split(prefix + rest, '/') == [prefix + Split(rest, '/')[0]] + Split(rest, '/')[1..]
  {
    if prefix == "" {
      assert prefix + rest == rest;
      assert prefix + Split(rest, '/')[0] == Split(rest, '/')[0];
    } else {
      assert (prefix + rest)[1..] == prefix[1..] + rest;
      SplitAfterPrefix(prefix[1..], rest);
      assert prefix[0] != '/';
      assert [prefix[0]] + (prefix[1..] + Split(rest, '/')[0]) == prefix + Split(rest, '/')[0];
    }
  }

  /** A rendered path is a valid pointer, and reading it gives the names back. */
  lemma RenderedPointer(tokens: seq<string>)
    ensures PointerSyntax(Render(tokens))
    ensures Tokens(Render(tokens)) == tokens
  {
    SplitRendered(tokens);
    var parts := Split(Render(tokens), '/')[1..];
    forall i | 0 <= i < |tokens| ensures EscapesOk(parts[i]) && Unescape(parts[i]) == tokens[i] {
      EscapeIsWellEscaped(tokens[i]);
      UnescapeInvertsEscape(tokens[i]);
    }
    assert Tokens(Render(tokens)) == tokens;
  }

  /** A well-escaped token without a slash is the escape of what it unescapes to. */
  lemma EscapeInvertsUnescape(token: string)
    requires EscapesOk(token) && Free(token, '/')
    ensures Escape(Unescape(token)) == token
  {
    var name := Named(token);
    UnescapeInvertsEscape(name);
  }

  /** The name a well-escaped token stands for, character by character. */
  lemma {:induction false} Named(token: string) returns (name: string)
    requires EscapesOk(token) && Free(token, '/')
    ensures Escape(name) == token
  {
    if token == "" {
      name := "";
    } else if token[0] == '~' {
      var rest := Named(token[2..]);
      name := [if token[1] == '0' then '~' else '/'] + rest;
      EscapeStep(name);
      assert name[1..] == rest && token == token[..2] + token[2..];
    } else {
      var rest := Named(token[1..]);
      name := [token[0]] + rest;
      EscapeStep(name);
      assert name[1..] == rest;
    }
  }

  lemma {:induction false} RenderOfParts(parts: seq<string>)
    requires parts != [] && forall part <- parts :: EscapesOk(part) && Free(part, '/')
    ensures Render(Unescaped(parts)) == "/" + Joined(parts, '/')
  {
    EscapeInvertsUnescape(parts[0]);
    assert Unescaped(parts)[1..] == Unescaped(parts[1..]);
    if |parts| > 1 {
      RenderOfParts(parts[1..]);
    } else {
      assert Unescaped(parts[1..]) == [];
    }
  }

  /** The valid pointers are exactly the rendered paths: each renders the names it is read as. */
  lemma PointersAreRenderedPaths(pointer: string)
    ensures PointerSyntax(pointer) <==> Render(Tokens(pointer)) == pointer
  {
    if PointerSyntax(pointer) {
      var parts := Split(pointer, '/');
      SplitJoins(pointer, '/');
      SplitPartsFree(pointer, '/');
      if pointer != "" {
        forall part <- parts[1..] ensures Free(part, '/') {
          var i :| 0 <= i < |parts| - 1 && parts[1..][i] == part;
          assert part == parts[i + 1];
        }
        assert parts[0] == "" && |parts| > 1;
        RenderOfParts(parts[1..]);
        assert Joined(parts, '/') == "" + ['/'] + Joined(parts[1..], '/');
      }
    }
    RenderedPointer(Tokens(pointer));
  }

  /** A token leads into an array exactly if it is the decimal of an index. */
  lemma FollowsIndexExactly(items: seq<Value>, token: string)
    ensures Follow(ArrayValue(items), token).Some? <==> exists k: nat :: k < |items| && token == Decimal(k)
    ensures forall k: nat | k < |items| :: Follow(ArrayValue(items), Decimal(k)) == Some(items[k])
  {
    if IsIndex(token) {
      DecimalOfValue(token);
    }
    forall k: nat | k < |items| ensures Follow(ArrayValue(items), Decimal(k)) == Some(items[k]) {
      DecimalValueOfDecimal(k);
    }
  }

  lemma {:induction false} WalkAppend(v: Value, tokens: seq<string>, name: string)
    ensures Walk(v, tokens + [name]) ==
      if Walk(v, tokens).None? then None else Follow(Walk(v, tokens).value, name)
    decreases |tokens|
  {
    if tokens == [] {
      assert tokens + [name] == [name] && [name][1..] == [];
    } else {
      assert (tokens + [name])[1..] == tokens[1..] + [name];
      if Follow(v, tokens[0]).Some? {
        WalkAppend(Follow(v, tokens[0]).value, tokens[1..], name);
      }
    }
  }
}
