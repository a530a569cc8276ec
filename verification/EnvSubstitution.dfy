/**
  `${VAR}` expansion (crates/keeper-rpc/src/market_registry.rs) over the bytes of a UTF-8 text: the
  byte-index loop never cuts a character, and it inverts the rendering of templates.
*/
module EnvSubstitution {
  import opened Wrappers

  const DOLLAR: byte := 0x24
  const OPEN_BRACE: byte := 0x7B
  const CLOSE_BRACE: byte := 0x7D

  // ---------------------------------------------------------------- UTF-8

  predicate IsTail(b: byte) {
    0x80 <= b <= 0xBF
  }

  /** The length of the well-formed character `s` starts with (section 4 of RFC 3629), or 0. */
  function CharLength(s: seq<byte>): (n: nat)
    ensures n <= |s|
  {
    if s == [] then 0
    else if s[0] <= 0x7F then 1
    else if 0xC2 <= s[0] <= 0xDF then (if |s| >= 2 && IsTail(s[1]) then 2 else 0)
    else if 0xE0 <= s[0] <= 0xEF then
      (if |s| >= 3 && IsTail(s[1]) && IsTail(s[2]) && (s[0] == 0xE0 ==> s[1] >= 0xA0) && (s[0] == 0xED ==> s[1] <= 0x9F)
       then 3 else 0)
    else if 0xF0 <= s[0] <= 0xF4 then
      (if |s| >= 4 && IsTail(s[1]) && IsTail(s[2]) && IsTail(s[3]) && (s[0] == 0xF0 ==> s[1] >= 0x90)
          && (s[0] == 0xF4 ==> s[1] <= 0x8F)
       then 4 else 0)
    else 0
  }

  /** Well-formed UTF-8. */
  predicate Utf8(s: seq<byte>) {
    s == [] || (CharLength(s) > 0 && Utf8(s[CharLength(s)..]))
  }

  /** `&str`: the type of texts. A value of it never needs a failing `from_utf8`. */
  type Text = s: seq<byte> | Utf8(s) witness []

  /** `utf8_char_len`. */
  function Utf8CharLen(first: byte): nat {
    if first < 0xC0 then 1 else if first < 0xE0 then 2 else if first < 0xF0 then 3 else 4
  }

  /** On well-formed text the leading byte tells the length, and the character is within bounds. */
  lemma LengthFromLeader(s: Text)
    requires s != []
    ensures Utf8CharLen(s[0]) == CharLength(s) <= |s|
  {
  }

  /** Cutting off or putting back a first character. */
  lemma FirstChar(s: Text)
    requires s != []
    ensures Utf8(s[..CharLength(s)]) && Utf8(s[CharLength(s)..])
  {
    var n := CharLength(s);
    var c := s[..n];
    assert CharLength(c) == n;
    assert c[n..] == [];
  }

  lemma FirstCharWhole(s: Text)
    requires s != []
    ensures 0 < CharLength(s) && CharLength(s[..CharLength(s)]) == CharLength(s)
  {
  }

  lemma {:induction false} Concatenates(a: Text, b: Text)
    ensures Utf8(a + b)
    ensures a != [] ==> CharLength(a + b) == CharLength(a)
    decreases |a|
  {
    if a == [] {
      assert a + b == b;
    } else {
      var n := CharLength(a);
      assert CharLength(a + b) == n;
      assert (a + b)[n..] == a[n..] + b;
      Concatenates(a[n..], b);
    }
  }

  /** An ASCII byte is a whole character: the text may be cut before it and after it. */
  lemma {:induction false} CutsAtAscii(s: Text, e: nat)
    requires e < |s| && s[e] < 0x80
    ensures Utf8(s[..e]) && Utf8(s[e..]) && Utf8(s[e + 1..])
    decreases |s|
  {
    if e == 0 {
      assert s[..e] == [] && s[e..] == s;
      assert CharLength(s) == 1;
    } else {
      hide Utf8, CharLength;
      var n := CharLength(s);
      FirstChar(s);
      FirstCharWhole(s);
      InsideChar(s, e);
      CutsAtAscii(s[n..], e - n);
      CutTwice(s, n, e);
      Concatenates(s[..n], s[n..][..e - n]);
    }
  }

  lemma CutTwice(s: seq<byte>, n: nat, e: nat)
    requires n <= e < |s|
    ensures s[..e] == s[..n] + s[n..][..e - n]
    ensures s[n..][e - n..] == s[e..] && s[n..][e - n + 1..] == s[e + 1..]
  {
  }

  lemma InsideChar(s: Text, e: nat)
    requires 0 < e < |s| && s[e] < 0x80
    ensures CharLength(s) <= e
  {
  }

  // ---------------------------------------------------------------- expansion

  datatype RegistryError =
    | EnvVar(name: Text)
    | Unclosed(offset: nat)
    | EmptyName(offset: nat)
    | InvalidName(offset: nat, name: Text)

  predicate IsAlphabetic(b: byte) {
    0x41 <= b <= 0x5A || 0x61 <= b <= 0x7A
  }

  predicate IsDigit(b: byte) {
    0x30 <= b <= 0x39
  }

  const UNDERSCORE: byte := 0x5F

  /** `is_valid_var_name`: `[A-Za-z_][A-Za-z0-9_]*`. */
  predicate IsVarName(name: seq<byte>) {
    && name != []
    && (IsAlphabetic(name[0]) || name[0] == UNDERSCORE)
    && forall i :: 0 <= i < |name| ==> IsAlphabetic(name[i]) || IsDigit(name[i]) || name[i] == UNDERSCORE
  }

  /** A letter, digit or underscore of ASCII. */
  predicate IsWordChar(c: char) {
    'A' <= c <= 'Z' || 'a' <= c <= 'z' || '0' <= c <= '9' || c == '_'
  }

  /** Variable names are words that do not start with a digit; the delimiters are `$`, `{` and `}`. */
  lemma VarNamesAre(name: seq<byte>)
    ensures IsVarName(name) <==>
      && name != [] && !('0' <= name[0] as char <= '9')
      && forall i :: 0 <= i < |name| ==> IsWordChar(name[i] as char)
    ensures DOLLAR as char == '$' && OPEN_BRACE as char == '{' && CLOSE_BRACE as char == '}'
  {
  }

  /** The first closing brace at or after `i`, or the end. */
  function ClosingBrace(s: seq<byte>, i: nat): (e: nat)
    requires i <= |s|
    ensures i <= e <= |s|
    ensures e < |s| ==> s[e] == CLOSE_BRACE
    ensures forall j :: i <= j < e ==> s[j] != CLOSE_BRACE
    decreases |s| - i
  {
    if i == |s| || s[i] == CLOSE_BRACE then i else ClosingBrace(s, i + 1)
  }

  /** What a `${name}` reference stands for. */
  function Resolve(name: Text, offset: nat, lookup: Text -> Option<Text>): Result<Text, RegistryError> {
    if name == [] then Err(EmptyName(offset))
    else if !IsVarName(name) then Err(InvalidName(offset, name))
    else
      match lookup(name)
      case Some(v) => if v == [] then Err(EnvVar(name)) else Ok(v)
      case None => Err(EnvVar(name))
  }

  function NoText(): Text {
    []
  }

  function Dollar(): (t: Text)
    ensures t == [DOLLAR]
  {
    DollarIsText([DOLLAR]);
    [DOLLAR]
  }

  lemma DollarIsText(t: seq<byte>)
    requires t == [DOLLAR]
    ensures Utf8(t)
  {
    assert t[CharLength(t)..] == [];
  }

  function Append(out: Text, rest: Result<Text, RegistryError>): Result<Text, RegistryError> {
    if rest.Ok? then Concatenates(out, rest.value); Ok(out + rest.value) else rest
  }

  /** The expansion of `s`, which stands at `offset` of the input. */
  function Expand(s: Text, offset: nat, lookup: Text -> Option<Text>): Result<Text, RegistryError>
    decreases |s|
  {
    if s == [] then Ok([])
    else if s[0] != DOLLAR then
      var n := CharLength(s);
      FirstChar(s);
      Append(s[..n], Expand(s[n..], offset + n, lookup))
    else if |s| > 1 && s[1] == DOLLAR then
      CutsAtAscii(s, 1);
      Append(Dollar(), Expand(s[2..], offset + 2, lookup))
    else if |s| > 1 && s[1] == OPEN_BRACE then
      var end := ClosingBrace(s, 2);
      if end == |s| then Err(Unclosed(offset))
      else
        NameIsText(s, end);
        var value :- Resolve(s[2..end], offset, lookup);
        Append(value, Expand(s[end + 1..], offset + end + 1, lookup))
    else
      CutsAtAscii(s, 0);
      Append(Dollar(), Expand(s[1..], offset + 1, lookup))
  }

  /** The slice between the braces, and what follows it, are texts. */
  lemma NameIsText(s: Text, end: nat)
    requires 2 <= end < |s| && s[1] == OPEN_BRACE && s[end] == CLOSE_BRACE
    ensures Utf8(s[2..end]) && Utf8(s[end + 1..])
  {
    hide CharLength;
    CutsAtAscii(s, 1);
    CutsAtAscii(s, end);
    CutsAtAscii(s[2..], end - 2);
    assert s[2..][..end - 2] == s[2..end];
  }

  lemma Regroup(a: seq<byte>, b: seq<byte>, c: seq<byte>)
    ensures a + b + c == a + (b + c)
    ensures (a + b + c)[|a|..] == b + c
  {
  }

  lemma AppendTwice(a: Text, b: Text, rest: Result<Text, RegistryError>)
    ensures Utf8(a + b) && Append(a + b, rest) == Append(a, Append(b, rest))
  {
    hide CharLength, Utf8;
    Concatenates(a, b);
    if rest.Ok? {
      Regroup(a, b, rest.value);
    }
  }

  lemma AppendNothing(rest: Result<Text, RegistryError>)
    ensures Append([], rest) == rest
  {
    if rest.Ok? {
      assert [] + rest.value == rest.value;
    }
  }

  // ---------------------------------------------------------------- the byte loop

  /** What has been written, and what the rest of the input expands to, make the whole result. */
  ghost predicate Expanding(input: Text, i: nat, out: Text, lookup: Text -> Option<Text>) {
    && i <= |input| && Utf8(input[i..])
    && Append(out, Expand(input[i..], i, lookup)) == Expand(input, 0, lookup)
  }

  lemma ExpandingFrom(input: Text, i: nat, out: Text, piece: Text, next: nat, lookup: Text -> Option<Text>)
    requires Expanding(input, i, out, lookup) && i <= next <= |input| && Utf8(input[next..])
    requires Expand(input[i..], i, lookup) == Append(piece, Expand(input[next..], next, lookup))
    ensures Utf8(out + piece) && Expanding(input, next, out + piece, lookup)
  {
    hide Expand, Append;
    AppendTwice(out, piece, Expand(input[next..], next, lookup));
  }

  /** One character is copied: its slice is in bounds and a text of its own. */
  lemma CharStep(input: Text, i: nat, lookup: Text -> Option<Text>)
    requires i < |input| && Utf8(input[i..]) && input[i] != DOLLAR
    ensures
      var n := Utf8CharLen(input[i]);
      && 0 < n && i + n <= |input| && Utf8(input[i..i + n]) && Utf8(input[i + n..])
      && Expand(input[i..], i, lookup) == Append(input[i..i + n], Expand(input[i + n..], i + n, lookup))
  {
    hide CharLength, Append;
    LengthFromLeader(input[i..]);
    FirstChar(input[i..]);
    var n := Utf8CharLen(input[i]);
    assert input[i..][..n] == input[i..i + n] && input[i..][n..] == input[i + n..];
  }

  /** `$$`, and a `$` that starts nothing. */
  lemma DollarStep(input: Text, i: nat, width: nat, lookup: Text -> Option<Text>)
    requires i < |input| && Utf8(input[i..]) && input[i] == DOLLAR
    requires width == if i + 1 < |input| && input[i + 1] == DOLLAR then 2 else 1
    requires width == 1 && i + 1 < |input| ==> input[i + 1] != OPEN_BRACE
    ensures Utf8(input[i + width..])
    ensures Expand(input[i..], i, lookup) == Append(Dollar(), Expand(input[i + width..], i + width, lookup))
  {
    hide CharLength, Append;
    var s := input[i..];
    CutsAtAscii(s, width - 1);
    assert s[width..] == input[i + width..];
  }

  /** A reference with a closing brace at `end`. */
  lemma ReferenceStep(input: Text, i: nat, end: nat, lookup: Text -> Option<Text>)
    requires i + 2 <= end <= |input| && Utf8(input[i..]) && input[i] == DOLLAR && input[i + 1] == OPEN_BRACE
    requires end == ClosingBrace(input, i + 2)
    ensures end == |input| ==> Expand(input[i..], i, lookup) == Err(Unclosed(i))
    ensures end < |input| ==>
      && Utf8(input[i + 2..end]) && Utf8(input[end + 1..])
      && Expand(input[i..], i, lookup) ==
           (var value :- Resolve(input[i + 2..end], i, lookup);
            Append(value, Expand(input[end + 1..], end + 1, lookup)))
  {
    hide CharLength, Append, Resolve, Utf8, ClosingBrace, Expand;
    var s := input[i..];
    BraceFrom(input, i, i + 2);
    ExpandBrace(s, i, lookup);
    if end < |input| {
      NameIsText(s, end - i);
      assert s[2..end - i] == input[i + 2..end] && s[end - i + 1..] == input[end + 1..];
    }
  }

  /** The reference branch. */
  lemma ExpandBrace(s: Text, offset: nat, lookup: Text -> Option<Text>)
    requires |s| > 1 && s[0] == DOLLAR && s[1] == OPEN_BRACE
    ensures
      var end := ClosingBrace(s, 2);
      && (end == |s| ==> Expand(s, offset, lookup) == Err(Unclosed(offset)))
      && (end < |s| ==>
            && Utf8(s[2..end]) && Utf8(s[end + 1..])
            && Expand(s, offset, lookup) ==
                 (var value :- Resolve(s[2..end], offset, lookup);
                  Append(value, Expand(s[end + 1..], offset + end + 1, lookup))))
  {
    hide CharLength, Append, Resolve, Utf8, ClosingBrace;
    if ClosingBrace(s, 2) < |s| {
      NameIsText(s, ClosingBrace(s, 2));
    }
  }

  lemma {:induction false} BraceFrom(s: seq<byte>, i: nat, j: nat)
    requires i <= j <= |s|
    ensures ClosingBrace(s[i..], j - i) == ClosingBrace(s, j) - i
    decreases |s| - j
  {
    if j < |s| && s[j] != CLOSE_BRACE {
      BraceFrom(s, i, j + 1);
    }
  }

  /**
    `substitute_env_vars`: on every text the loop ends, every slice it takes is in bounds and cut at
    character boundaries, and the result is again a text.
  */
  method SubstituteEnvVars(input: Text, lookup: Text -> Option<Text>) returns (r: Result<Text, RegistryError>)
    ensures r == Expand(input, 0, lookup)
  {
    hide Expand, Append, CharLength, ClosingBrace, Utf8CharLen, Resolve, Utf8;
    var out: Text := NoText();
    var i := 0;
    assert input[0..] == input;
    AppendNothing(Expand(input, 0, lookup));
    while i < |input|
      invariant Expanding(input, i, out, lookup)
      decreases |input| - i
    {
      if input[i] != DOLLAR {
        CharStep(input, i, lookup);
        var n := Utf8CharLen(input[i]);
        var piece: Text := input[i..i + n];
        ExpandingFrom(input, i, out, piece, i + n, lookup);
        out := out + piece;
        i := i + n;
        continue;
      }
      if i + 1 < |input| && input[i + 1] == DOLLAR {
        DollarStep(input, i, 2, lookup);
        ExpandingFrom(input, i, out, Dollar(), i + 2, lookup);
        out := out + Dollar();
        i := i + 2;
        continue;
      }
      if i + 1 < |input| && input[i + 1] == OPEN_BRACE {
        var end := FindClosingBrace(input, i + 2);
        ReferenceStep(input, i, end, lookup);
        AppendError(out, Expand(input[i..], i, lookup));
        if end >= |input| {
          return Err(Unclosed(i));
        }
        var value := Resolve(input[i + 2..end], i, lookup);
        if value.Err? {
          return Err(value.error);
        }
        ExpandingFrom(input, i, out, value.value, end + 1, lookup);
        out := out + value.value;
        i := end + 1;
        continue;
      }
      DollarStep(input, i, 1, lookup);
      ExpandingFrom(input, i, out, Dollar(), i + 1, lookup);
      out := out + Dollar();
      i := i + 1;
    }
    assert input[i..] == [];
    ExpandNothing(i, lookup);
    AppendEnd(out);
    return Ok(out);
  }

  lemma ExpandNothing(offset: nat, lookup: Text -> Option<Text>)
    ensures Expand([], offset, lookup) == Ok([])
  {
  }

  lemma AppendEnd(out: Text)
    ensures Append(out, Ok([])) == Ok(out)
  {
    assert out + [] == out;
  }

  lemma AppendError(out: Text, rest: Result<Text, RegistryError>)
    ensures rest.Err? ==> Append(out, rest) == rest
  {
  }

  /** The scan for the closing brace. */
  method FindClosingBrace(s: seq<byte>, start: nat) returns (end: nat)
    requires start <= |s|
    ensures end == ClosingBrace(s, start)
  {
    end := start;
    while end < |s| && s[end] != CLOSE_BRACE
      invariant start <= end <= |s|
      invariant ClosingBrace(s, end) == ClosingBrace(s, start)
    {
      end := end + 1;
    }
  }

  // ---------------------------------------------------------------- templates

  /** What a text with references means to its author. */
  datatype Piece = Literal(text: Text) | Reference(name: Text)

  /** Every `$` doubled. */
  function Doubled(s: seq<byte>): seq<byte> {
    if s == [] then [] else (if s[0] == DOLLAR then [DOLLAR, DOLLAR] else [s[0]]) + Doubled(s[1..])
  }

  function Written(p: Piece): seq<byte> {
    match p
    case Literal(text) => Doubled(text)
    case Reference(name) => [DOLLAR, OPEN_BRACE] + name + [CLOSE_BRACE]
  }

  function WrittenAll(ps: seq<Piece>): seq<byte> {
    if ps == [] then [] else Written(ps[0]) + WrittenAll(ps[1..])
  }

  /** The value of a piece under `lookup`: a name that is unset or empty is an error. */
  function Value(p: Piece, lookup: Text -> Option<Text>): Result<Text, RegistryError> {
    match p
    case Literal(text) => Ok(text)
    case Reference(name) => if lookup(name).Some? && lookup(name).value != [] then Ok(lookup(name).value) else Err(EnvVar(name))
  }

  /** The values one after the other; the first error decides. */
  function ValueAll(ps: seq<Piece>, lookup: Text -> Option<Text>): Result<Text, RegistryError> {
    if ps == [] then Ok([])
    else
      var first :- Value(ps[0], lookup);
      Append(first, ValueAll(ps[1..], lookup))
  }

  lemma {:induction false} DoubledAppend(a: seq<byte>, b: seq<byte>)
    ensures Doubled(a + b) == Doubled(a) + Doubled(b)
    decreases |a|
  {
    if a == [] {
      assert a + b == b;
    } else {
      assert (a + b)[1..] == a[1..] + b;
      DoubledAppend(a[1..], b);
    }
  }

  lemma {:induction false} DoubledPlain(a: seq<byte>)
    requires forall i :: 0 <= i < |a| ==> a[i] != DOLLAR
    ensures Doubled(a) == a
    decreases |a|
  {
    if a == [] {
    } else {
      DoubledPlain(a[1..]);
      assert a == [a[0]] + a[1..];
    }
  }

  /** A first character other than `$` is kept as it is. */
  lemma DoubledChar(s: Text)
    requires s != [] && s[0] != DOLLAR
    ensures Doubled(s) == s[..CharLength(s)] + Doubled(s[CharLength(s)..])
  {
    var n := CharLength(s);
    DoubledPlain(s[..n]);
    DoubledAppend(s[..n], s[n..]);
    assert s == s[..n] + s[n..];
  }

  lemma {:induction false} DoubledIsText(s: Text)
    ensures Utf8(Doubled(s))
    decreases |s|
  {
    if s == [] {
    } else {
      FirstChar(s);
      var n := CharLength(s);
      DoubledIsText(s[n..]);
      if s[0] != DOLLAR {
        DoubledChar(s);
        Concatenates(s[..n], Doubled(s[n..]));
      } else {
        Concatenates(Dollar(), Dollar());
        assert Dollar() + Dollar() == [DOLLAR, DOLLAR];
        Concatenates([DOLLAR, DOLLAR], Doubled(s[n..]));
      }
    }
  }

  lemma ExpandChar(s: Text, offset: nat, lookup: Text -> Option<Text>)
    requires s != [] && s[0] != DOLLAR
    ensures Utf8(s[..CharLength(s)]) && Utf8(s[CharLength(s)..])
    ensures Expand(s, offset, lookup) == Append(s[..CharLength(s)], Expand(s[CharLength(s)..], offset + CharLength(s), lookup))
  {
    hide CharLength, Append;
    FirstChar(s);
  }

  lemma ExpandDouble(s: Text, offset: nat, lookup: Text -> Option<Text>)
    requires |s| > 1 && s[0] == DOLLAR && s[1] == DOLLAR
    ensures Utf8(s[2..]) && Expand(s, offset, lookup) == Append(Dollar(), Expand(s[2..], offset + 2, lookup))
  {
    hide CharLength, Append;
    CutsAtAscii(s, 1);
  }

  lemma DoubledNothing()
    ensures Doubled([]) == []
  {
  }

  lemma DollarFirst(s: Text)
    requires s != [] && s[0] == DOLLAR
    ensures CharLength(s) == 1 && Utf8(s[1..])
    ensures Doubled(s) == [DOLLAR, DOLLAR] + Doubled(s[1..])
  {
  }

  /** Of a text that begins with the character `c`. */
  lemma CharInFront(c: Text, tail: Text)
    requires c != [] && CharLength(c) == |c|
    ensures Utf8(c + tail) && CharLength(c + tail) == |c|
    ensures (c + tail)[..|c|] == c && (c + tail)[|c|..] == tail && (c + tail)[0] == c[0]
  {
    Concatenates(c, tail);
  }

  /** A doubled text in front of anything contributes itself. */
  lemma {:induction false} ExpandDoubled(a: Text, rest: Text, offset: nat, lookup: Text -> Option<Text>)
    ensures Utf8(Doubled(a) + rest)
    ensures Expand(Doubled(a) + rest, offset, lookup) == Append(a, Expand(rest, offset + |Doubled(a)|, lookup))
    decreases |a|
  {
    hide CharLength, Utf8, Expand, Append, Doubled;
    DoubledIsText(a);
    Concatenates(Doubled(a), rest);
    var s := Doubled(a) + rest;
    if a == [] {
      DoubledNothing();
      assert s == rest;
      AppendNothing(Expand(rest, offset, lookup));
    } else {
      FirstChar(a);
      FirstCharWhole(a);
      var n := CharLength(a);
      DoubledIsText(a[n..]);
      Concatenates(Doubled(a[n..]), rest);
      var tail := Doubled(a[n..]) + rest;
      ExpandDoubled(a[n..], rest, if a[0] == DOLLAR then offset + 2 else offset + n, lookup);
      AppendTwice(a[..n], a[n..], Expand(rest, offset + |Doubled(a)|, lookup));
      assert a[..n] + a[n..] == a;
      if a[0] == DOLLAR {
        DollarFirst(a);
        Regroup([DOLLAR, DOLLAR], Doubled(a[1..]), rest);
        assert a[..n] == Dollar();
        ExpandDouble(s, offset, lookup);
      } else {
        DoubledChar(a);
        CharInFront(a[..n], tail);
        Regroup(a[..n], Doubled(a[n..]), rest);
        ExpandChar(s, offset, lookup);
      }
    }
  }

  /** Doubling every `$` and substituting gives the text back, under any lookup. */
  lemma DoubledRoundTrip(s: Text, lookup: Text -> Option<Text>)
    ensures Utf8(Doubled(s)) && Expand(Doubled(s), 0, lookup) == Ok(s)
  {
    hide CharLength, Utf8, Expand, Append, Doubled;
    DoubledIsText(s);
    EmptyText();
    ExpandDoubled(s, [], 0, lookup);
    ExpandNothing(|Doubled(s)|, lookup);
    AppendEnd(s);
    assert Doubled(s) + [] == Doubled(s);
  }

  lemma EmptyText()
    ensures Utf8([])
  {
  }

  // ---------------------------------------------------------------- rendered templates

  lemma {:induction false} AsciiText(s: seq<byte>)
    requires forall i :: 0 <= i < |s| ==> s[i] < 0x80
    ensures Utf8(s)
    decreases |s|
  {
    if s == [] {
    } else {
      AsciiText(s[1..]);
    }
  }

  /** All references of a template are named as the shell allows. */
  predicate WellNamed(ps: seq<Piece>) {
    forall i :: 0 <= i < |ps| && ps[i].Reference? ==> IsVarName(ps[i].name)
  }

  lemma ReferenceIsText(name: Text)
    requires IsVarName(name)
    ensures Utf8(Written(Reference(name)))
  {
    AsciiText(Written(Reference(name)));
  }

  lemma {:induction false} NoBraceBefore(s: seq<byte>, i: nat, e: nat)
    requires i <= e < |s| && s[e] == CLOSE_BRACE
    requires forall j :: i <= j < e ==> s[j] != CLOSE_BRACE
    ensures ClosingBrace(s, i) == e
    decreases e - i
  {
    if i < e {
      NoBraceBefore(s, i + 1, e);
    }
  }

  lemma PlainName(name: Text)
    requires IsVarName(name)
    ensures name != [] && forall i :: 0 <= i < |name| ==> name[i] != CLOSE_BRACE
  {
  }

  /** A reference in front of anything contributes its value, or its error. */
  lemma ExpandReference(name: Text, rest: Text, offset: nat, lookup: Text -> Option<Text>)
    requires IsVarName(name)
    ensures Utf8(Written(Reference(name)) + rest)
    ensures
      var s := Written(Reference(name)) + rest;
      Expand(s, offset, lookup) ==
        (var v :- Value(Reference(name), lookup);
         Append(v, Expand(rest, offset + |name| + 3, lookup)))
  {
    hide CharLength, Utf8, Append, Expand, ClosingBrace, IsVarName;
    ReferenceIsText(name);
    PlainName(name);
    Concatenates(Written(Reference(name)), rest);
    var s := Written(Reference(name)) + rest;
    ReferenceParts(name, rest, s);
    NoBraceBefore(s, 2, |name| + 2);
    ExpandBrace(s, offset, lookup);
  }

  lemma ReferenceParts(name: seq<byte>, rest: seq<byte>, s: seq<byte>)
    requires s == [DOLLAR, OPEN_BRACE] + name + [CLOSE_BRACE] + rest
    ensures |s| > |name| + 2 && s[0] == DOLLAR && s[1] == OPEN_BRACE && s[|name| + 2] == CLOSE_BRACE
    ensures s[2..|name| + 2] == name && s[|name| + 3..] == rest
    ensures forall j :: 2 <= j < |name| + 2 ==> s[j] == name[j - 2]
  {
  }

  /** A reference whose name is not allowed is an error at the place of its dollar. */
  lemma BadReference(name: Text, rest: Text, offset: nat, lookup: Text -> Option<Text>)
    requires !IsVarName(name) && forall i :: 0 <= i < |name| ==> name[i] != CLOSE_BRACE
    ensures
      var s := [DOLLAR, OPEN_BRACE] + name + [CLOSE_BRACE] + rest;
      && Utf8(s)
      && Expand(s, offset, lookup) == Err(if name == [] then EmptyName(offset) else InvalidName(offset, name))
  {
    hide CharLength, Utf8, Append, Expand, ClosingBrace, IsVarName;
    var s := [DOLLAR, OPEN_BRACE] + name + [CLOSE_BRACE] + rest;
    AsciiText([DOLLAR, OPEN_BRACE]);
    AsciiText([CLOSE_BRACE]);
    Concatenates([DOLLAR, OPEN_BRACE], name);
    Concatenates([DOLLAR, OPEN_BRACE] + name, [CLOSE_BRACE]);
    Concatenates([DOLLAR, OPEN_BRACE] + name + [CLOSE_BRACE], rest);
    ReferenceParts(name, rest, s);
    NoBraceBefore(s, 2, |name| + 2);
    ExpandBrace(s, offset, lookup);
  }

  lemma {:induction false} WrittenIsText(ps: seq<Piece>)
    requires WellNamed(ps)
    ensures Utf8(WrittenAll(ps))
    decreases |ps|
  {
    if ps != [] {
      hide Utf8, CharLength, Doubled, IsVarName;
      WrittenIsText(ps[1..]);
      match ps[0] {
        case Literal(text) => DoubledIsText(text);
        case Reference(name) => ReferenceIsText(name);
      }
      Concatenates(Written(ps[0]), WrittenAll(ps[1..]));
    } else {
      EmptyText();
    }
  }

  /**
    Substitution inverts the writing of templates: every text and every reference comes out as
    itself, and the first name that is unset or empty is the error.
  */
  lemma {:induction false} TemplateRoundTrip(ps: seq<Piece>, offset: nat, lookup: Text -> Option<Text>)
    requires WellNamed(ps)
    ensures Utf8(WrittenAll(ps)) && Expand(WrittenAll(ps), offset, lookup) == ValueAll(ps, lookup)
    decreases |ps|
  {
    hide Utf8, CharLength, Doubled, IsVarName, Expand, Append;
    WrittenIsText(ps);
    if ps == [] {
      ExpandNothing(offset, lookup);
    } else {
      WrittenIsText(ps[1..]);
      TemplateRoundTrip(ps[1..], offset + |Written(ps[0])|, lookup);
      match ps[0] {
        case Literal(text) => ExpandDoubled(text, WrittenAll(ps[1..]), offset, lookup);
        case Reference(name) => ExpandReference(name, WrittenAll(ps[1..]), offset, lookup);
      }
    }
  }
}
