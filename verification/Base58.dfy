/**
  Base58 decoding (crates/keeper-rpc/src/market_registry.rs): the carry loop over a little-endian
  byte buffer, against positional notation, and against a reference encoder in both directions.
*/
module Base58 {
  import opened Wrappers

  // ---------------------------------------------------------------- positional notation

  /** `ds` are digits of base `base`. */
  predicate AreDigits(ds: seq<nat>, base: nat) {
    forall i :: 0 <= i < |ds| ==> ds[i] < base
  }

  /** The number whose digits are `ds`, most significant first. */
  function Number(ds: seq<nat>, base: nat): nat {
    if ds == [] then 0 else Number(ds[..|ds| - 1], base) * base + ds[|ds| - 1]
  }

  /** All of `n` but its last digit, and that digit. */
  function Shifted(n: nat, base: nat): (q: nat)
    requires base >= 2
    ensures n > 0 ==> q < n
  {
    QuotientSmaller(n, base);
    n / base
  }

  lemma QuotientSmaller(n: nat, base: nat)
    requires base >= 2
    ensures n > 0 ==> n / base < n
  {
    var q, r := n / base, n % base;
    assert q * base + r == n;
    Grows(q, base);
  }

  lemma Grows(q: nat, base: nat)
    requires base >= 2
    ensures q + q <= q * base
  {
  }

  function LastDigit(n: nat, base: nat): (r: nat)
    requires base >= 2
    ensures r < base
  {
    n % base
  }

  lemma ShiftBack(n: nat, base: nat)
    requires base >= 2
    ensures Shifted(n, base) * base + LastDigit(n, base) == n
  {
  }

  /** The digits of `n` without leading zeros. */
  function Digits(n: nat, base: nat): seq<nat>
    requires base >= 2
  {
    if n == 0 then [] else Digits(Shifted(n, base), base) + [LastDigit(n, base)]
  }

  predicate NoLeadingZero(ds: seq<nat>) {
    ds == [] || ds[0] != 0
  }

  function Zeros(n: nat): seq<nat> {
    seq(n, _ => 0)
  }

  function LeadingZeros(ds: seq<nat>): (n: nat)
    ensures n <= |ds|
  {
    if ds == [] || ds[0] != 0 then 0 else 1 + LeadingZeros(ds[1..])
  }

  /** Change of base; leading zeros carry over one for one. */
  function Rebase(ds: seq<nat>, base: nat, target: nat): seq<nat>
    requires target >= 2
  {
    Zeros(LeadingZeros(ds)) + Digits(Number(ds, base), target)
  }

  lemma {:induction false} DigitsAreDigits(n: nat, base: nat)
    requires base >= 2
    ensures AreDigits(Digits(n, base), base) && NoLeadingZero(Digits(n, base))
  {
    if n > 0 {
      ShiftBack(n, base);
      hide Shifted, LastDigit;
      DigitsAreDigits(Shifted(n, base), base);
      if Shifted(n, base) > 0 {
        assert Digits(Shifted(n, base), base) != [];
      }
    }
  }

  lemma {:induction false} NumberOfDigits(n: nat, base: nat)
    requires base >= 2
    ensures Number(Digits(n, base), base) == n
  {
    if n > 0 {
      ShiftBack(n, base);
      hide Shifted, LastDigit;
      var ds := Digits(n, base);
      assert ds[..|ds| - 1] == Digits(Shifted(n, base), base);
      NumberOfDigits(Shifted(n, base), base);
    }
  }

  lemma {:induction false} DigitsOfNumber(ds: seq<nat>, base: nat)
    requires base >= 2 && AreDigits(ds, base) && NoLeadingZero(ds)
    ensures Digits(Number(ds, base), base) == ds
    decreases |ds|
  {
    if ds == [] {
    } else {
      var front, last := ds[..|ds| - 1], ds[|ds| - 1];
      DigitsOfNumber(front, base);
      Quotient(Number(front, base), last, base);
      NumberPositive(ds, base);
      hide Shifted, LastDigit;
      assert ds == front + [last];
    }
  }

  lemma Quotient(q: nat, r: nat, base: nat)
    requires r < base && base >= 2
    ensures Shifted(q * base + r, base) == q && LastDigit(q * base + r, base) == r
  {
    var n := q * base + r;
    ShiftBack(n, base);
    hide Shifted, LastDigit;
    var (q', r') := (Shifted(n, base), LastDigit(n, base));
    assert q' * base + r' == q * base + r;
    assert (q' - q) * base == r - r';
    if q' > q {
      Multiple(q' - q, base);
    } else if q' < q {
      assert (q - q') * base == r' - r;
      Multiple(q - q', base);
    }
  }

  lemma Multiple(k: nat, base: nat)
    requires k >= 1
    ensures k * base >= base
  {
  }

  lemma {:induction false} NumberPositive(ds: seq<nat>, base: nat)
    requires base >= 2 && ds != [] && ds[0] != 0
    ensures Number(ds, base) > 0
    decreases |ds|
  {
    if |ds| > 1 {
      NumberPositive(ds[..|ds| - 1], base);
    }
  }

  /** Leading zeros do not count. */
  lemma {:induction false} NumberSkipsZeros(k: nat, ds: seq<nat>, base: nat)
    ensures Number(Zeros(k) + ds, base) == Number(ds, base)
    decreases k + |ds|
  {
    var all := Zeros(k) + ds;
    if ds != [] {
      assert all[..|all| - 1] == Zeros(k) + ds[..|ds| - 1];
      NumberSkipsZeros(k, ds[..|ds| - 1], base);
    } else if k > 0 {
      assert all[..|all| - 1] == Zeros(k - 1) + ds;
      NumberSkipsZeros(k - 1, ds, base);
    }
  }

  /** Every digit sequence is its leading zeros and the rest. */
  lemma {:induction false} ZerosAndRest(ds: seq<nat>)
    ensures ds == Zeros(LeadingZeros(ds)) + ds[LeadingZeros(ds)..]
    ensures NoLeadingZero(ds[LeadingZeros(ds)..])
    decreases |ds|
  {
    if ds != [] && ds[0] == 0 {
      ZerosAndRest(ds[1..]);
      var k := LeadingZeros(ds[1..]);
      assert ds == [0] + ds[1..];
      assert Zeros(k + 1) == [0] + Zeros(k);
      assert ds[1..][k..] == ds[k + 1..];
    }
  }

  lemma {:induction false} LeadingZerosOf(k: nat, ds: seq<nat>)
    requires NoLeadingZero(ds)
    ensures LeadingZeros(Zeros(k) + ds) == k
  {
    if k > 0 {
      assert (Zeros(k) + ds)[1..] == Zeros(k - 1) + ds;
      LeadingZerosOf(k - 1, ds);
    }
  }

  /** Changing the base and back is the identity. */
  lemma RebaseBack(ds: seq<nat>, base: nat, target: nat)
    requires base >= 2 && target >= 2 && AreDigits(ds, base)
    ensures AreDigits(Rebase(ds, base, target), target)
    ensures Rebase(Rebase(ds, base, target), target, base) == ds
  {
    var k, n := LeadingZeros(ds), Number(ds, base);
    var there := Digits(n, target);
    DigitsAreDigits(n, target);
    LeadingZerosOf(k, there);
    NumberSkipsZeros(k, there, target);
    NumberOfDigits(n, target);
    ZerosAndRest(ds);
    NumberSkipsZeros(k, ds[k..], base);
    DigitsOfNumber(ds[k..], base);
  }

  // ---------------------------------------------------------------- characters

  /** `BS58_ALPHABET`: 1-9, then A-Z without I and O, then a-z without l. */
  function Letter(d: nat): char
    requires d < 58
  {
    if d < 9 then '1' + d as char
    else if d < 17 then 'A' + (d - 9) as char
    else if d < 22 then 'J' + (d - 17) as char
    else if d < 33 then 'P' + (d - 22) as char
    else if d < 44 then 'a' + (d - 33) as char
    else 'm' + (d - 44) as char
  }

  /** `char::is_whitespace`: the characters of the Unicode property White_Space. */
  predicate IsWhitespace(c: char) {
    var u := c as int;
    || 0x9 <= u <= 0xD || u == 0x20 || u == 0x85 || u == 0xA0 || u == 0x1680 || 0x2000 <= u <= 0x200A
    || u == 0x2028 || u == 0x2029 || u == 0x202F || u == 0x205F || u == 0x3000
  }

  /** The 25 whitespace characters, one by one. */
  lemma WhitespaceIs(c: char)
    ensures IsWhitespace(c) <==> c in {
      '\t', '\n', '\U{000B}', '\U{000C}', '\r', ' ', '\U{0085}', '\U{00A0}', '\U{1680}', '\U{2000}', '\U{2001}',
      '\U{2002}', '\U{2003}', '\U{2004}', '\U{2005}', '\U{2006}', '\U{2007}', '\U{2008}', '\U{2009}', '\U{200A}',
      '\U{2028}', '\U{2029}', '\U{202F}', '\U{205F}', '\U{3000}'}
  {
  }

  /** The position of `c` in the alphabet, or 58. */
  function DigitFrom(c: char, i: nat): (d: nat)
    requires i <= 58
    ensures i <= d <= 58
    ensures d < 58 ==> Letter(d) == c
    decreases 58 - i
  {
    if i == 58 then 58 else if Letter(i) == c then i else DigitFrom(c, i + 1)
  }

  function DigitOf(c: char): (d: nat)
    ensures d <= 58
  {
    DigitFrom(c, 0)
  }

  /** The digits of the characters that are not whitespace, or the first character that has none. */
  function ReadDigits(input: string): Result<seq<nat>, char> {
    if input == [] then Ok([])
    else if IsWhitespace(input[0]) then ReadDigits(input[1..])
    else if DigitOf(input[0]) == 58 then Err(input[0])
    else
      var rest :- ReadDigits(input[1..]);
      Ok([DigitOf(input[0])] + rest)
  }

  /** What decoding means: the same number, in base 256, one zero byte for each leading '1'. */
  function Decoded(input: string): Result<seq<nat>, char> {
    var ds :- ReadDigits(input);
    Ok(Rebase(ds, 58, 256))
  }

  /** The reference encoder. */
  function Encode(bytes: seq<byte>): string {
    Spell(Rebase(bytes, 256, 58))
  }

  function Spell(ds: seq<nat>): string {
    seq(|ds|, i requires 0 <= i < |ds| => if ds[i] < 58 then Letter(ds[i]) else ' ')
  }

  lemma AlphabetStep(i: nat)
    requires i < 57
    ensures Letter(i) < Letter(i + 1)
  {
  }

  lemma {:induction false} AlphabetAscends(i: nat, j: nat)
    requires i < j < 58
    ensures Letter(i) < Letter(j)
    decreases j
  {
    hide Letter;
    AlphabetStep(j - 1);
    if i < j - 1 {
      AlphabetAscends(i, j - 1);
    }
  }

  lemma EndLetters()
    ensures Letter(0) == '1' && Letter(57) == 'z'
  {
  }

  /** Each of the 58 characters stands for one digit. */
  lemma DigitOfLetter(d: nat)
    requires d < 58
    ensures DigitOf(Letter(d)) == d && !IsWhitespace(Letter(d)) && Letter(d) as int < 128
  {
    hide Letter;
    EndLetters();
    FoundBy(Letter(d), d, 0);
    var f := DigitOf(Letter(d));
    if f < d {
      AlphabetAscends(f, d);
    }
    if d > 0 {
      AlphabetAscends(0, d);
    }
    if d < 57 {
      AlphabetAscends(d, 57);
    }
  }

  lemma {:induction false} FoundBy(c: char, d: nat, i: nat)
    requires i <= d < 58 && Letter(d) == c
    ensures DigitFrom(c, i) <= d
    decreases d - i
  {
    hide Letter;
    if Letter(i) != c {
      FoundBy(c, d, i + 1);
    }
  }

  /** An ASCII letter or digit that cannot be mistaken for another: no '0', 'O', 'I' or 'l'. */
  predicate IsBase58(c: char) {
    && ('0' <= c <= '9' || 'A' <= c <= 'Z' || 'a' <= c <= 'z')
    && c != '0' && c != 'O' && c != 'I' && c != 'l'
  }

  /** The place of an alphabet character. */
  function Place(c: char): (d: nat)
    requires IsBase58(c)
    ensures d < 58 && Letter(d) == c
  {
    var u := c as int;
    if c <= '9' then u - '1' as int
    else if c <= 'H' then u - 'A' as int + 9
    else if c <= 'N' then u - 'J' as int + 17
    else if c <= 'Z' then u - 'P' as int + 22
    else if c <= 'k' then u - 'a' as int + 33
    else u - 'm' as int + 44
  }

  lemma LettersAreBase58(d: nat)
    requires d < 58
    ensures IsBase58(Letter(d))
  {
  }

  /** The alphabet is exactly these 58 characters, in ascending order. */
  lemma AlphabetIs(c: char, e: char)
    ensures DigitOf(c) < 58 <==> IsBase58(c)
    ensures IsBase58(c) && IsBase58(e) ==> (DigitOf(c) < DigitOf(e) <==> c < e)
  {
    hide Letter, IsBase58;
    if DigitOf(c) < 58 {
      LettersAreBase58(DigitOf(c));
    }
    if IsBase58(c) {
      FoundBy(c, Place(c), 0);
      if IsBase58(e) {
        FoundBy(e, Place(e), 0);
        if DigitOf(c) < DigitOf(e) {
          AlphabetAscends(DigitOf(c), DigitOf(e));
        } else if DigitOf(e) < DigitOf(c) {
          AlphabetAscends(DigitOf(e), DigitOf(c));
        }
      }
    }
  }

  /** A text decodes exactly when it holds nothing but alphabet characters and whitespace. */
  lemma {:induction false} DecodesExactly(s: string)
    ensures Decoded(s).Ok? <==> forall i :: 0 <= i < |s| ==> IsWhitespace(s[i]) || IsBase58(s[i])
    ensures Decoded(s).Err? ==> Decoded(s).error in s && !IsBase58(Decoded(s).error) && !IsWhitespace(Decoded(s).error)
    decreases |s|
  {
    hide Letter, IsBase58, IsWhitespace, Rebase, DigitOf;
    if s == [] {
    } else {
      AlphabetIs(s[0], s[0]);
      DecodesExactly(s[1..]);
      assert forall i :: 0 < i < |s| ==> s[i] == s[1..][i - 1];
    }
  }

  // ---------------------------------------------------------------- inverse both ways

  /** A text of base-58 letters only. */
  predicate IsWritten(s: string) {
    forall i :: 0 <= i < |s| ==> DigitOf(s[i]) < 58
  }

  lemma {:induction false} ReadSpelled(ds: seq<nat>)
    requires AreDigits(ds, 58)
    ensures ReadDigits(Spell(ds)) == Ok(ds) && IsWritten(Spell(ds))
    decreases |ds|
  {
    hide Letter;
    if ds != [] {
      DigitOfLetter(ds[0]);
      assert Spell(ds)[1..] == Spell(ds[1..]) && ds == [ds[0]] + ds[1..];
      ReadSpelled(ds[1..]);
      forall i | 0 <= i < |ds|
        ensures DigitOf(Spell(ds)[i]) < 58
      {
        DigitOfLetter(ds[i]);
      }
    }
  }

  lemma {:induction false} SpellRead(s: string)
    requires IsWritten(s)
    ensures ReadDigits(s).Ok? && AreDigits(ReadDigits(s).value, 58) && Spell(ReadDigits(s).value) == s
    decreases |s|
  {
    hide Letter;
    if s != [] {
      DigitOfLetter(DigitOf(s[0]));
      SpellRead(s[1..]);
      assert s == [s[0]] + s[1..];
    }
  }

  /** Decoding what the reference encoder wrote gives the bytes back, however many zero bytes lead. */
  lemma DecodeEncoded(bytes: seq<byte>)
    ensures Decoded(Encode(bytes)) == Ok(bytes)
  {
    RebaseBack(bytes, 256, 58);
    ReadSpelled(Rebase(bytes, 256, 58));
  }

  /** Encoding what was decoded gives the text back, for every text without whitespace that decodes. */
  lemma EncodeDecoded(s: string)
    requires Decoded(s).Ok? && forall i :: 0 <= i < |s| ==> !IsWhitespace(s[i])
    ensures AreDigits(Decoded(s).value, 256) && Encode(AsBytes(Decoded(s).value)) == s
  {
    DecodesWritten(s);
    SpellRead(s);
    RebaseBack(ReadDigits(s).value, 58, 256);
    assert AsBytes(Decoded(s).value) == Decoded(s).value;
  }

  function AsBytes(ds: seq<nat>): seq<byte>
    requires AreDigits(ds, 256)
  {
    ds
  }

  lemma {:induction false} DecodesWritten(s: string)
    requires ReadDigits(s).Ok? && forall i :: 0 <= i < |s| ==> !IsWhitespace(s[i])
    ensures IsWritten(s)
    decreases |s|
  {
    hide Letter;
    if s != [] {
      DecodesWritten(s[1..]);
      forall i | 0 <= i < |s|
        ensures DigitOf(s[i]) < 58
      {
        if i > 0 {
          assert s[i] == s[1..][i - 1];
        }
      }
    }
  }

  /** Whitespace is passed over wherever it stands. */
  lemma {:induction false} WhitespaceIgnored(a: string, c: char, b: string)
    requires IsWhitespace(c)
    ensures Decoded(a + [c] + b) == Decoded(a + b)
  {
    ReadWithout(a, c, b);
  }

  lemma {:induction false} ReadWithout(a: string, c: char, b: string)
    requires IsWhitespace(c)
    ensures ReadDigits(a + [c] + b) == ReadDigits(a + b)
    decreases |a|
  {
    if a == [] {
      assert ([c] + b)[1..] == b && a + [c] + b == [c] + b && a + b == b;
    } else {
      assert (a + [c] + b)[1..] == a[1..] + [c] + b && (a + b)[1..] == a[1..] + b;
      ReadWithout(a[1..], c, b);
    }
  }

  // ---------------------------------------------------------------- the carry loop

  /** The number of a little-endian buffer. */
  function Little(bs: seq<byte>): nat {
    if bs == [] then 0 else bs[0] + 256 * Little(bs[1..])
  }

  /** `bs * 58 + carry` in place, low byte first. */
  function MulAdd(bs: seq<byte>, carry: nat): seq<byte>
    requires carry < 58
  {
    if bs == [] then (if carry > 0 then [carry] else [])
    else [(carry + bs[0] as nat * 58) % 256] + MulAdd(bs[1..], (carry + bs[0] as nat * 58) / 256)
  }

  /** The top byte, if there is one, is not zero. */
  predicate Trimmed(bs: seq<byte>) {
    bs != [] ==> bs[|bs| - 1] != 0
  }

  lemma {:induction false} MulAddIs(bs: seq<byte>, carry: nat)
    requires carry < 58
    ensures Little(MulAdd(bs, carry)) == 58 * Little(bs) + carry
    ensures |bs| <= |MulAdd(bs, carry)| <= |bs| + 1
    ensures Trimmed(bs) ==> Trimmed(MulAdd(bs, carry))
    decreases |bs|
  {
    if bs != [] {
      MulAddIs(bs[1..], (carry + bs[0] as nat * 58) / 256);
      assert MulAdd(bs, carry)[1..] == MulAdd(bs[1..], (carry + bs[0] as nat * 58) / 256);
    } else if carry > 0 {
      assert [carry][1..] == [];
    }
  }

  function Reversed(bs: seq<byte>): (r: seq<byte>)
    ensures |r| == |bs|
  {
    if bs == [] then [] else Reversed(bs[1..]) + [bs[0]]
  }

  lemma {:induction false} ReversedNumber(bs: seq<byte>)
    ensures Number(Reversed(bs), 256) == Little(bs)
    ensures bs != [] ==> Reversed(bs)[0] == bs[|bs| - 1]
    decreases |bs|
  {
    if bs == [] {
    } else {
      ReversedNumber(bs[1..]);
      var r := Reversed(bs);
      assert r[..|r| - 1] == Reversed(bs[1..]);
    }
  }

  lemma {:induction false} ReversedZeros(bs: seq<byte>, k: nat)
    ensures Reversed(bs + Zeros(k)) == Zeros(k) + Reversed(bs)
    decreases |bs| + k
  {
    if bs == [] {
      assert bs + Zeros(k) == Zeros(k);
      if k > 0 {
        assert Zeros(k)[1..] == Zeros(k - 1);
        ReversedZeros([], k - 1);
        assert [] + Zeros(k - 1) == Zeros(k - 1);
        assert Zeros(k) == Zeros(k - 1) + [0];
      }
    } else {
      assert (bs + Zeros(k))[1..] == bs[1..] + Zeros(k);
      ReversedZeros(bs[1..], k);
    }
  }

  /** A trimmed buffer, reversed, is the digits of its number. */
  lemma TrimmedDigits(bs: seq<byte>)
    requires Trimmed(bs)
    ensures Reversed(bs) == Digits(Little(bs), 256)
  {
    ReversedNumber(bs);
    DigitsOfNumber(Reversed(bs), 256);
  }

  // ---------------------------------------------------------------- the decoder

  /** The lookup table: a character's digit, or 0xff. */
  method AlphabetTable() returns (alpha: array<nat>)
    ensures fresh(alpha) && alpha.Length == 128
    ensures forall u :: 0 <= u < 128 ==> alpha[u] == if DigitOf(u as char) < 58 then DigitOf(u as char) else 0xff
  {
    hide Letter;
    alpha := new nat[128](_ => 0xff);
    var i := 0;
    while i < 58
      invariant 0 <= i <= 58
      invariant forall u :: 0 <= u < 128 ==> alpha[u] == if DigitOf(u as char) < i then DigitOf(u as char) else 0xff
    {
      DigitOfLetter(i);
      alpha[Letter(i) as int] := i;
      forall u | 0 <= u < 128
        ensures alpha[u] == if DigitOf(u as char) < i + 1 then DigitOf(u as char) else 0xff
      {
        if DigitOf(u as char) == i {
          assert Letter(i) == u as char;
        }
      }
      i := i + 1;
    }
  }

  /** One digit: multiply the buffer by 58 and add; at most one byte is pushed. */
  method MulAddInPlace(bs: seq<byte>, v: nat) returns (out: seq<byte>)
    requires v < 58
    ensures out == MulAdd(bs, v) && |out| <= |bs| + 1
  {
    out := bs;
    var carry: nat := v;
    var i := 0;
    while i < |out|
      invariant 0 <= i <= |out| == |bs|
      invariant carry < 58
      invariant out[i..] == bs[i..]
      invariant out[..i] + MulAdd(bs[i..], carry) == MulAdd(bs, v)
    {
      assert bs[i..][0] == out[i] && bs[i..][1..] == bs[i + 1..];
      carry := carry + out[i] as nat * 58;
      out := out[i := carry % 256];
      carry := carry / 256;
      i := i + 1;
    }
    assert out[..i] == out && bs[i..] == [];
    while carry > 0
      invariant carry < 58
      invariant out + (if carry > 0 then [carry] else []) == MulAdd(bs, v)
      invariant carry > 0 ==> |out| == |bs|
      invariant |out| <= |bs| + 1
    {
      out := out + [carry % 256];
      carry := carry / 256;
    }
  }

  /** The digits read so far, then the rest. */
  function Onto(ds: seq<nat>, rest: Result<seq<nat>, char>): Result<seq<nat>, char> {
    if rest.Ok? then Ok(ds + rest.value) else rest
  }

  lemma OntoNothing(rest: Result<seq<nat>, char>)
    ensures Onto([], rest) == rest
  {
    if rest.Ok? {
      assert [] + rest.value == rest.value;
    }
  }

  lemma OntoTwice(ds: seq<nat>, v: nat, rest: Result<seq<nat>, char>)
    ensures Onto(ds + [v], rest) == Onto(ds, Onto([v], rest))
  {
    if rest.Ok? {
      assert ds + [v] + rest.value == ds + ([v] + rest.value);
    }
  }

  lemma NextDigit(ds: seq<nat>, v: nat, bs: seq<byte>)
    requires AreDigits(ds, 58) && v < 58 && Trimmed(bs) && Little(bs) == Number(ds, 58)
    ensures AreDigits(ds + [v], 58) && Trimmed(MulAdd(bs, v)) && Little(MulAdd(bs, v)) == Number(ds + [v], 58)
  {
    MulAddIs(bs, v);
    assert (ds + [v])[..|ds + [v]| - 1] == ds;
  }

  /** `base58_decode`. */
  method Base58Decode(input: string) returns (r: Result<seq<byte>, char>)
    ensures r == Decoded(input)
  {
    hide Letter, DigitOf, Digits;
    var alpha := AlphabetTable();
    var out: seq<byte> := [];
    ghost var ds: seq<nat> := [];
    var i := 0;
    assert input[0..] == input;
    OntoNothing(ReadDigits(input));
    while i < |input|
      invariant 0 <= i <= |input|
      invariant Onto(ds, ReadDigits(input[i..])) == ReadDigits(input)
      invariant AreDigits(ds, 58) && Trimmed(out) && Little(out) == Number(ds, 58)
      invariant forall u :: 0 <= u < 128 ==> alpha[u] == if DigitOf(u as char) < 58 then DigitOf(u as char) else 0xff
    {
      var c := input[i];
      assert input[i..][0] == c && input[i..][1..] == input[i + 1..];
      if !IsWhitespace(c) {
        if c as int >= 128 {
          BeyondAlphabet(c);
          return Err(c);
        }
        var v := alpha[c as int];
        if v == 0xff {
          return Err(c);
        }
        NextDigit(ds, v, out);
        OntoTwice(ds, v, ReadDigits(input[i + 1..]));
        out := MulAddInPlace(out, v);
        ds := ds + [v];
      }
      i := i + 1;
    }
    assert input[i..] == [] && ds + [] == ds;
    TrimmedDigits(out);
    var zeros := CountLeadingOnes(input);
    LeadingOnes(input);
    ReversedZeros(out, zeros);
    out := out + Zeros(zeros);
    return Ok(Reversed(out));
  }

  /** Characters outside ASCII are no digits. */
  lemma BeyondAlphabet(c: char)
    requires c as int >= 128
    ensures DigitOf(c) == 58
  {
    hide Letter;
    if DigitOf(c) < 58 {
      DigitOfLetter(DigitOf(c));
    }
  }

  /** Leading '1's, whitespace passed over. */
  function Ones(input: string): nat {
    if input == [] then 0
    else if input[0] == '1' then 1 + Ones(input[1..])
    else if IsWhitespace(input[0]) then Ones(input[1..])
    else 0
  }

  method CountLeadingOnes(input: string) returns (zeros: nat)
    ensures zeros == Ones(input)
  {
    zeros := 0;
    var i := 0;
    while i < |input|
      invariant 0 <= i <= |input|
      invariant zeros + Ones(input[i..]) == Ones(input)
    {
      assert input[i..][1..] == input[i + 1..];
      if input[i] == '1' {
        zeros := zeros + 1;
      } else if !IsWhitespace(input[i]) {
        return;
      }
      i := i + 1;
    }
  }

  /** Leading zero bytes are leading '1' characters. */
  lemma {:induction false} LeadingOnes(input: string)
    requires ReadDigits(input).Ok?
    ensures Ones(input) == LeadingZeros(ReadDigits(input).value)
    decreases |input|
  {
    hide Letter;
    if input != [] {
      DigitOfLetter(0);
      EndLetters();
      if !IsWhitespace(input[0]) {
        assert DigitOf(input[0]) == 0 <==> input[0] == '1';
        assert ReadDigits(input).value[1..] == ReadDigits(input[1..]).value;
        LeadingOnes(input[1..]);
      } else {
        LeadingOnes(input[1..]);
      }
    }
  }
}
