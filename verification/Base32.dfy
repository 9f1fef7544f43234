/** The Base32 text of section 6 of RFC 4648, without padding, and the lenient decoder of totp.ts. */
module Base32 {

  newtype Bit = b: int | 0 <= b < 2
  newtype Byte = b: int | 0 <= b < 256

  type Bits = seq<Bit>
  type Bytes = seq<Byte>

  const BASE32_ALPHABET := "ABCDEFGHIJKLMNOPQRSTUVWXYZ234567"

  // ---- numbers as bits -------------------------------------------------------------------------

  function Pow2(n: nat): (p: nat)
    ensures p >= 1
  {
    if n == 0 then 1 else 2 * Pow2(n - 1)
  }

  /** toString(2).padStart(width, '0'): the low `width` binary digits, most significant first. */
  function ToBits(n: nat, width: nat): (r: Bits)
    ensures |r| == width
  {
    if width == 0 then [] else ToBits(n / 2, width - 1) + [(n % 2) as Bit]
  }

  /** parseInt(text, 2). */
  function FromBits(bits: Bits): (n: nat)
    ensures n < Pow2(|bits|)
  {
    if bits == [] then 0 else 2 * FromBits(bits[..|bits| - 1]) + bits[|bits| - 1] as nat
  }

  lemma BitsAppend(bits: Bits, b: Bit)
    ensures FromBits(bits + [b]) == 2 * FromBits(bits) + b as nat
  {
    assert (bits + [b])[..|bits|] == bits;
  }

  lemma {:induction false} FromToBits(n: nat, width: nat)
    requires n < Pow2(width)
    ensures FromBits(ToBits(n, width)) == n
  {
    if width == 0 {
    } else {
      var init, last := ToBits(n / 2, width - 1), (n % 2) as Bit;
      assert Pow2(width) == 2 * Pow2(width - 1);
      FromToBits(n / 2, width - 1);
      BitsAppend(init, last);
    }
  }

  lemma {:induction false} ToFromBits(bits: Bits)
    ensures ToBits(FromBits(bits), |bits|) == bits
  {
    if bits == [] {
    } else {
      ToFromBits(bits[..|bits| - 1]);
    }
  }

  // ---- regrouping --------------------------------------------------------------------------------

  /** The number of whole groups in n bits, and the bits they cover. */
  function Groups(n: nat, width: nat): (g: nat)
    requires width > 0
    decreases n
  {
    if n < width then 0 else 1 + Groups(n - width, width)
  }

  function Covered(n: nat, width: nat): (c: nat)
    requires width > 0
    ensures c <= n
    decreases n
  {
    if n < width then 0 else width + Covered(n - width, width)
  }

  lemma {:induction false} GroupsAre(n: nat)
    ensures Groups(n, 5) == n / 5 && Covered(n, 5) == n / 5 * 5 && Groups(n, 8) == n / 8
  {
    if n < 5 {
    } else {
      GroupsAre(n - 5);
      if n >= 8 {
        GroupsAre(n - 8);
      }
    }
  }

  /** The numbers written by consecutive groups of `width` bits; an incomplete last group is dropped. */
  function Group(bits: Bits, width: nat): (r: seq<nat>)
    requires width > 0
    ensures |r| == Groups(|bits|, width)
    ensures forall i :: 0 <= i < |r| ==> r[i] < Pow2(width)
    decreases |bits|
  {
    if |bits| < width then [] else [FromBits(bits[..width])] + Group(bits[width..], width)
  }

  function Spread(values: seq<nat>, width: nat): Bits {
    if values == [] then [] else ToBits(values[0], width) + Spread(values[1..], width)
  }

  lemma {:induction false} SpreadLength(values: seq<nat>)
    ensures |Spread(values, 8)| == 8 * |values| && |Spread(values, 5)| == 5 * |values|
  {
    if values == [] {
    } else {
      SpreadLength(values[1..]);
    }
  }

  lemma {:induction false} SpreadGroup(bits: Bits, width: nat)
    requires width > 0
    ensures Spread(Group(bits, width), width) == bits[..Covered(|bits|, width)]
    decreases |bits|
  {
    if |bits| < width {
    } else {
      var rest := bits[width..];
      SpreadGroup(rest, width);
      ToFromBits(bits[..width]);
      assert bits[..width] + rest[..Covered(|rest|, width)] == bits[..Covered(|bits|, width)];
    }
  }

  /** Reading back the first `count` bits of spread values gives the values that lie wholly inside. */
  lemma {:induction false} GroupSpread(values: seq<nat>, width: nat, count: nat)
    requires width > 0 && count <= |Spread(values, width)|
    requires forall i :: 0 <= i < |values| ==> values[i] < Pow2(width)
    ensures Groups(count, width) <= |values|
    ensures Group(Spread(values, width)[..count], width) == values[..Groups(count, width)]
    decreases |values|
  {
    if count < width {
    } else {
      var bits := Spread(values, width)[..count];
      GroupSpread(values[1..], width, count - width);
      FromToBits(values[0], width);
      assert bits[..width] == ToBits(values[0], width);
      assert bits[width..] == Spread(values[1..], width)[..count - width];
    }
  }

  // ---- the alphabet --------------------------------------------------------------------------------

  /** indexOf on an upper-case character: its five-bit value, or -1. */
  function IndexOf(c: char): (r: int)
    ensures -1 <= r < 32
    ensures 0 <= r ==> BASE32_ALPHABET[r] == c
  {
    if 'A' <= c <= 'Z' then c as int - 'A' as int
    else if '2' <= c <= '7' then c as int - '2' as int + 26
    else -1
  }

  /** The letter of a five-bit value. */
  function Letter(i: nat): (c: char)
    requires i < 32
    ensures IndexOf(c) == i && Upper(c) == [c]
  {
    BASE32_ALPHABET[i]
  }

  function Text(values: seq<nat>): (s: string)
    requires forall i :: 0 <= i < |values| ==> values[i] < 32
    ensures |s| == |values| && forall i :: 0 <= i < |s| ==> s[i] == Letter(values[i])
  {
    seq(|values|, i requires 0 <= i < |values| => Letter(values[i]))
  }

  /** The characters outside ASCII whose upper case has ASCII letters: dotless i, long s, sharp s and ligatures. */
  function SpecialLength(c: char): nat {
    match c
    case '\U{131}' => 1
    case '\U{17F}' => 1
    case '\U{FB03}' => 3
    case '\U{FB04}' => 3
    case _ =>
      if c == '\U{DF}' || c == '\U{149}' || c == '\U{1F0}' || '\U{1E96}' <= c <= '\U{1E9A}'
         || '\U{FB00}' <= c <= '\U{FB06}' then 2 else 1
  }

  /** The i-th character of such an upper case. */
  function SpecialPart(c: char, i: nat): char {
    match c
    case '\U{DF}' => 'S'
    case '\U{131}' => 'I'
    case '\U{149}' => if i == 0 then '\U{2BC}' else 'N'
    case '\U{17F}' => 'S'
    case '\U{1F0}' => if i == 0 then 'J' else '\U{30C}'
    case '\U{1E96}' => if i == 0 then 'H' else '\U{331}'
    case '\U{1E97}' => if i == 0 then 'T' else '\U{308}'
    case '\U{1E98}' => if i == 0 then 'W' else '\U{30A}'
    case '\U{1E99}' => if i == 0 then 'Y' else '\U{30A}'
    case '\U{1E9A}' => if i == 0 then 'A' else '\U{2BE}'
    case '\U{FB00}' => 'F'
    case '\U{FB01}' => if i == 0 then 'F' else 'I'
    case '\U{FB02}' => if i == 0 then 'F' else 'L'
    case '\U{FB03}' => if i < 2 then 'F' else 'I'
    case '\U{FB04}' => if i < 2 then 'F' else 'L'
    case '\U{FB05}' => if i == 0 then 'S' else 'T'
    case '\U{FB06}' => if i == 0 then 'S' else 'T'
    case _ => c
  }

  /** toUpperCase of one character, up to results that share no character with the alphabet. */
  function Upper(c: char): string {
    if 'a' <= c <= 'z' then [c - 32 as char]
    else if c as int < 128 then [c]
    else seq(SpecialLength(c), i requires 0 <= i < SpecialLength(c) => SpecialPart(c, i))
  }

  predicate IsSpace(c: char) {
    c == ' ' || '\t' <= c <= '\r'
  }

  /** Every character spelt by a table of spellings. */
  function Spell(s: string, spelling: char -> string): string {
    if s == [] then [] else Spell(s[..|s| - 1], spelling) + spelling(s[|s| - 1])
  }

  function ToUpper(s: string): string {
    Spell(s, Upper)
  }

  /** replace(/=+$/, ''). */
  function TrimPadding(s: string): (r: string)
    ensures r <= s
  {
    if s != [] && s[|s| - 1] == '=' then TrimPadding(s[..|s| - 1]) else s
  }

  /** replace(/\s/g, ''), up to spaces outside ASCII, which the decoder skips anyway. */
  function DropSpaces(s: string): string {
    if s == [] then []
    else if IsSpace(s[|s| - 1]) then DropSpaces(s[..|s| - 1])
    else DropSpaces(s[..|s| - 1]) + [s[|s| - 1]]
  }

  /** The five-bit values of the alphabet characters; all others are skipped. */
  function Values(s: string): (r: seq<nat>)
    ensures forall i :: 0 <= i < |r| ==> r[i] < 32
  {
    if s == [] then []
    else if IndexOf(s[|s| - 1]) < 0 then Values(s[..|s| - 1])
    else Values(s[..|s| - 1]) + [IndexOf(s[|s| - 1])]
  }

  function Clean(secret: string): string {
    DropSpaces(ToUpper(TrimPadding(secret)))
  }

  function ToByte(n: nat): Byte
    requires n < 256
  {
    n as Byte
  }

  function Octets(bits: Bits): (r: Bytes)
    ensures |r| == Groups(|bits|, 8)
  {
    Pow2Values();
    var g := Group(bits, 8);
    seq(|g|, i requires 0 <= i < |g| => ToByte(g[i]))
  }

  function Naturals(bytes: Bytes): (r: seq<nat>)
    ensures |r| == |bytes| && forall i :: 0 <= i < |r| ==> r[i] == bytes[i] as nat
  {
    seq(|bytes|, i requires 0 <= i < |bytes| => bytes[i] as nat)
  }

  lemma Pow2Values()
    ensures Pow2(5) == 32 && Pow2(8) == 256
  {
    assert Pow2(3) == 8;
    assert Pow2(5) == 4 * Pow2(3);
    assert Pow2(8) == 8 * Pow2(5);
  }

  /** The text of the five-bit groups of some bits. */
  function FivesText(bits: Bits): string {
    Pow2Values();
    Text(Group(bits, 5))
  }

  /** The encoder as a regrouping of eights into fives. */
  function Encode(bytes: Bytes): string {
    FivesText(Spread(Naturals(bytes), 8))
  }

  /** The decoder as a regrouping of fives into eights. */
  function Decode(secret: string): Bytes {
    Octets(Spread(Values(Clean(secret)), 5))
  }

  // ---- the text as a number ---------------------------------------------------------------------------

  /** The number that digits write to some base, most significant first. */
  function Number(digits: seq<nat>, base: nat): nat {
    if digits == [] then 0 else base * Number(digits[..|digits| - 1], base) + digits[|digits| - 1]
  }

  lemma DoubledSum(p: nat, x: nat, y: nat, b: nat)
    ensures 2 * (p * x + y) + b == 2 * p * x + (2 * y + b)
  {
    assert 2 * (p * x) == 2 * p * x;
  }

  lemma {:induction false} FromBitsConcat(a: Bits, b: Bits)
    ensures FromBits(a + b) == Pow2(|b|) * FromBits(a) + FromBits(b)
  {
    if b == [] {
      assert a + b == a;
    } else {
      var n := |b| - 1;
      FromBitsConcat(a, b[..n]);
      BitsAppend(a + b[..n], b[n]);
      assert a + b == a + b[..n] + [b[n]];
      DoubledSum(Pow2(n), FromBits(a), FromBits(b[..n]), b[n] as nat);
      assert Pow2(|b|) == 2 * Pow2(n);
    }
  }

  /** Values spread over bits and values as digits write the same number. */
  lemma {:induction false} SpreadNumber(values: seq<nat>, width: nat)
    requires forall i :: 0 <= i < |values| ==> values[i] < Pow2(width)
    ensures FromBits(Spread(values, width)) == Number(values, Pow2(width))
  {
    if values == [] {
    } else {
      var n := |values| - 1;
      SpreadNumber(values[..n], width);
      SpreadAppend(values[..n], values[n], width);
      assert values == values[..n] + [values[n]];
      FromBitsConcat(Spread(values[..n], width), ToBits(values[n], width));
      FromToBits(values[n], width);
    }
  }

  lemma {:induction false} ValuesOfText(values: seq<nat>)
    requires forall i :: 0 <= i < |values| ==> values[i] < 32
    ensures Values(Text(values)) == values
  {
    if values == [] {
    } else {
      var n := |values| - 1;
      ValuesOfText(values[..n]);
      assert Text(values)[..n] == Text(values[..n]);
      assert values == values[..n] + [values[n]];
    }
  }

  /** Section 6 of RFC 4648: the letters, as digits to base 32, write the number that the bytes write to base 256. */
  lemma EncodesTheNumber(bytes: Bytes)
    requires |bytes| % 5 == 0
    ensures 5 * |Encode(bytes)| == 8 * |bytes|
    ensures Number(Values(Encode(bytes)), 32) == Number(Naturals(bytes), 256)
  {
    Pow2Values();
    var bits := Spread(Naturals(bytes), 8);
    SpreadLength(Naturals(bytes));
    GroupsAre(|bits|);
    EncodesBits(bits);
    SpreadNumber(Naturals(bytes), 8);
  }

  lemma EncodesBits(bits: Bits)
    requires |bits| % 5 == 0
    ensures |FivesText(bits)| == |bits| / 5 && Number(Values(FivesText(bits)), 32) == FromBits(bits)
  {
    Pow2Values();
    var fives := Group(bits, 5);
    GroupsAre(|bits|);
    SpreadGroup(bits, 5);
    assert bits[..Covered(|bits|, 5)] == bits;
    SpreadNumber(fives, 5);
    ValuesOfText(fives);
  }

  // ---- the loops --------------------------------------------------------------------------------------

  lemma SpreadAppend(values: seq<nat>, v: nat, width: nat)
    ensures Spread(values + [v], width) == Spread(values, width) + ToBits(v, width)
  {
    if values == [] {
      assert values + [v] == [v];
    } else {
      SpreadAppend(values[1..], v, width);
      assert (values + [v])[1..] == values[1..] + [v];
    }
  }

  lemma NextByte(buf: Bytes, k: nat)
    requires k < |buf|
    ensures Spread(Naturals(buf[..k + 1]), 8) == Spread(Naturals(buf[..k]), 8) + ToBits(buf[k] as nat, 8)
  {
    assert Naturals(buf[..k + 1]) == Naturals(buf[..k]) + [buf[k] as nat];
    SpreadAppend(Naturals(buf[..k]), buf[k] as nat, 8);
  }

  lemma NextValue(clean: string, k: nat)
    requires k < |clean|
    ensures Spread(Values(clean[..k + 1]), 5)
            == Spread(Values(clean[..k]), 5) + if IndexOf(clean[k]) < 0 then [] else ToBits(IndexOf(clean[k]), 5)
  {
    assert clean[..k + 1][..k] == clean[..k];
    if IndexOf(clean[k]) >= 0 {
      SpreadAppend(Values(clean[..k]), IndexOf(clean[k]), 5);
    } else {
      assert Spread(Values(clean[..k]), 5) + [] == Spread(Values(clean[..k]), 5);
    }
  }

  lemma NextFive(bits: Bits)
    requires |bits| >= 5
    ensures FromBits(bits[..5]) < 32
    ensures FivesText(bits) == [Letter(FromBits(bits[..5]))] + FivesText(bits[5..])
  {
    Pow2Values();
    assert Group(bits, 5) == [FromBits(bits[..5])] + Group(bits[5..], 5);
  }

  lemma NextOctet(bits: Bits)
    requires |bits| >= 8
    ensures FromBits(bits[..8]) < 256
    ensures Octets(bits) == [ToByte(FromBits(bits[..8]))] + Octets(bits[8..])
  {
    Pow2Values();
    assert Group(bits, 8) == [FromBits(bits[..8])] + Group(bits[8..], 8);
  }

  method GenerateBase32Secret(buf: Bytes) returns (out: string)
    ensures out == Encode(buf)
  {
    var bits: Bits := [];
    for k := 0 to |buf|
      invariant bits == Spread(Naturals(buf[..k]), 8)
    {
      NextByte(buf, k);
      bits := bits + ToBits(buf[k] as nat, 8);
    }
    assert buf[..|buf|] == buf;
    out := "";
    var i := 0;
    while i + 5 <= |bits|
      invariant 0 <= i <= |bits|
      invariant FivesText(bits) == out + FivesText(bits[i..])
    {
      NextFive(bits[i..]);
      assert bits[i..][..5] == bits[i..i + 5] && bits[i..][5..] == bits[i + 5..];
      out := out + [Letter(FromBits(bits[i..i + 5]))];
      i := i + 5;
    }
  }

  method Base32Decode(secret: string) returns (bytes: Bytes)
    ensures bytes == Decode(secret)
  {
    var clean := Clean(secret);
    var bits: Bits := [];
    for k := 0 to |clean|
      invariant bits == Spread(Values(clean[..k]), 5)
    {
      NextValue(clean, k);
      var idx := IndexOf(clean[k]);
      if idx != -1 {
        bits := bits + ToBits(idx, 5);
      }
    }
    assert clean[..|clean|] == clean;
    bytes := [];
    var i := 0;
    while i + 8 <= |bits|
      invariant 0 <= i <= |bits|
      invariant Octets(bits) == bytes + Octets(bits[i..])
    {
      NextOctet(bits[i..]);
      assert bits[i..][..8] == bits[i..i + 8] && bits[i..][8..] == bits[i + 8..];
      bytes := bytes + [ToByte(FromBits(bits[i..i + 8]))];
      i := i + 8;
    }
  }

  // ---- what the decoder ignores -------------------------------------------------------------------------

  /** The values of the characters that count, once spelt. */
  function Payload(s: string, spelling: char -> string): seq<nat> {
    Values(Spell(s, spelling))
  }

  lemma {:induction false} ValuesConcat(s: string, t: string)
    ensures Values(s + t) == Values(s) + Values(t)
  {
    if t == [] {
      assert s + t == s;
    } else {
      ValuesConcat(s, t[..|t| - 1]);
      assert (s + t)[..|s + t| - 1] == s + t[..|t| - 1];
    }
  }

  lemma PayloadAppend(s: string, c: char, spelling: char -> string)
    ensures Payload(s + [c], spelling) == Payload(s, spelling) + Values(spelling(c))
  {
    assert (s + [c])[..|s|] == s;
    ValuesConcat(Spell(s, spelling), spelling(c));
  }

  lemma {:induction false} SpellConcat(s: string, t: string, spelling: char -> string)
    ensures Spell(s + t, spelling) == Spell(s, spelling) + Spell(t, spelling)
  {
    if t == [] {
      assert s + t == s;
    } else {
      SpellConcat(s, t[..|t| - 1], spelling);
      assert (s + t)[..|s + t| - 1] == s + t[..|t| - 1];
    }
  }

  lemma PayloadConcat(s: string, t: string, spelling: char -> string)
    ensures Payload(s + t, spelling) == Payload(s, spelling) + Payload(t, spelling)
  {
    SpellConcat(s, t, spelling);
    ValuesConcat(Spell(s, spelling), Spell(t, spelling));
  }

  lemma ValuesAppend(s: string, c: char)
    ensures Values(s + [c]) == Values(s) + if IndexOf(c) < 0 then [] else [IndexOf(c)]
  {
    assert (s + [c])[..|s|] == s;
  }

  lemma ValuesOfOne(c: char)
    ensures Values([c]) == if IndexOf(c) < 0 then [] else [IndexOf(c)]
  {
    ValuesAppend([], c);
    assert [] + [c] == [c];
  }

  /** The character's spelling has no character of the alphabet. */
  predicate Ignores(spelling: char -> string, c: char) {
    Values(spelling(c)) == []
  }

  lemma {:induction false} NoPayload(s: string, spelling: char -> string)
    requires forall i :: 0 <= i < |s| ==> Ignores(spelling, s[i])
    ensures Payload(s, spelling) == []
  {
    if s == [] {
    } else {
      var init, c := s[..|s| - 1], s[|s| - 1];
      NoPayload(init, spelling);
      PayloadAppend(init, c, spelling);
      assert s == init + [c] && Ignores(spelling, c);
    }
  }

  lemma {:induction false} TrimKeepsPayload(s: string, spelling: char -> string)
    requires Ignores(spelling, '=')
    ensures Payload(TrimPadding(s), spelling) == Payload(s, spelling)
  {
    if s == [] || s[|s| - 1] != '=' {
    } else {
      var init := s[..|s| - 1];
      TrimKeepsPayload(init, spelling);
      PayloadAppend(init, '=', spelling);
      assert s == init + ['='];
    }
  }

  lemma {:induction false} SpacesHaveNoValue(s: string)
    ensures Values(DropSpaces(s)) == Values(s)
  {
    if s == [] {
    } else {
      var init := s[..|s| - 1];
      SpacesHaveNoValue(init);
      if !IsSpace(s[|s| - 1]) {
        ValuesAppend(DropSpaces(init), s[|s| - 1]);
      }
    }
  }

  /** Neither case of the character has a letter or digit of the alphabet. */
  predicate Ignored(c: char) {
    Ignores(Upper, c)
  }

  /** An ASCII character is ignored exactly when it is none of A-Z, a-z and 2-7. */
  lemma AsciiIgnoredIff(c: char)
    requires c as int < 128
    ensures Ignored(c) <==> !('A' <= c <= 'Z' || 'a' <= c <= 'z' || '2' <= c <= '7')
  {
    ValuesOfOne(if 'a' <= c <= 'z' then c - 32 as char else c);
  }

  /** Decoding depends on the payload only. */
  lemma DecodeSeesPayload(secret: string)
    ensures Decode(secret) == Octets(Spread(Payload(secret, Upper), 5))
  {
    AsciiIgnoredIff('=');
    SpacesHaveNoValue(ToUpper(TrimPadding(secret)));
    TrimKeepsPayload(secret, Upper);
  }

  lemma SamePayload(s: string, t: string)
    requires Payload(s, Upper) == Payload(t, Upper)
    ensures Decode(s) == Decode(t)
  {
    DecodeSeesPayload(s);
    DecodeSeesPayload(t);
  }

  lemma NoiseHasNoPayload(before: string, noise: string, after: string, spelling: char -> string)
    requires forall i :: 0 <= i < |noise| ==> Ignores(spelling, noise[i])
    ensures Payload(before + noise + after, spelling) == Payload(before + after, spelling)
  {
    NoPayload(noise, spelling);
    PayloadConcat(before, after, spelling);
    PayloadConcat(before + noise, after, spelling);
    PayloadConcat(before, noise, spelling);
  }

  /** Ignored characters, padding, white space and other ASCII text among them, may be inserted anywhere. */
  lemma DecodeIgnoresNoise(before: string, noise: string, after: string)
    requires forall i :: 0 <= i < |noise| ==> Ignored(noise[i])
    ensures Decode(before + noise + after) == Decode(before + after)
  {
    NoiseHasNoPayload(before, noise, after, Upper);
    SamePayload(before + noise + after, before + after);
  }

  /** Every character that counts brings five bits. */
  lemma DecodedLength(secret: string)
    ensures |Decode(secret)| == 5 * |Payload(secret, Upper)| / 8
  {
    DecodeSeesPayload(secret);
    SpreadLength(Payload(secret, Upper));
    GroupsAre(5 * |Payload(secret, Upper)|);
  }

  lemma TwoOfOne(c: char, spelling: char -> string)
    requires |Values(spelling(c))| == 1
    ensures |Payload([c, c], spelling)| == 2
  {
    PayloadAppend([], c, spelling);
    PayloadAppend([c], c, spelling);
    assert [] + [c] == [c] && [c] + [c] == [c, c];
  }

  lemma DotlessSpelling(c: char)
    requires c == '\U{131}'
    ensures IndexOf(c) < 0 && |Values(Upper(c))| == 1
  {
    assert Upper(c) == ['I'];
    ValuesOfOne('I');
  }

  /** Outside ASCII a character that is not in the alphabet can count: two dotless i's decode to a byte. */
  lemma DotlessCounts(c: char)
    requires c == '\U{131}'
    ensures IndexOf(c) < 0 && |Decode([c, c])| == 1 && |Decode([])| == 0
  {
    DotlessSpelling(c);
    TwoOfOne(c, Upper);
    DecodedLength([c, c]);
    DecodedLength([]);
  }

  /** Letters may be of either case: texts that are equal in upper case decode alike. */
  lemma DecodeIgnoresCase(s: string, t: string)
    requires ToUpper(s) == ToUpper(t)
    ensures Decode(s) == Decode(t)
  {
    SamePayload(s, t);
  }

  // ---- the round trip -----------------------------------------------------------------------------------------

  lemma {:induction false} PayloadOfText(values: seq<nat>)
    requires forall i :: 0 <= i < |values| ==> values[i] < 32
    ensures Payload(Text(values), Upper) == values
  {
    if values == [] {
    } else {
      var n := |values| - 1;
      PayloadOfText(values[..n]);
      PayloadAppend(Text(values[..n]), Letter(values[n]), Upper);
      ValuesOfOne(Letter(values[n]));
      assert Text(values) == Text(values[..n]) + [Letter(values[n])];
      assert values == values[..n] + [values[n]];
    }
  }

  lemma DecodeEncodeBits(bytes: Bytes)
    ensures var bits := Spread(Naturals(bytes), 8);
            Decode(Encode(bytes)) == Octets(bits[..Covered(|bits|, 5)])
  {
    Pow2Values();
    var bits := Spread(Naturals(bytes), 8);
    PayloadOfText(Group(bits, 5));
    DecodeSeesPayload(Encode(bytes));
    SpreadGroup(bits, 5);
  }

  lemma OctetsOfSpread(bytes: Bytes, count: nat)
    requires count <= |Spread(Naturals(bytes), 8)|
    ensures Groups(count, 8) <= |bytes|
    ensures Octets(Spread(Naturals(bytes), 8)[..count]) == bytes[..Groups(count, 8)]
  {
    Pow2Values();
    var values := Naturals(bytes);
    var bits := Spread(values, 8)[..count];
    GroupSpread(values, 8, count);
    var n := Groups(count, 8);
    forall i | 0 <= i < n
      ensures Octets(bits)[i] == bytes[i]
    {
      assert Octets(bits)[i] == ToByte(Group(bits, 8)[i]);
      assert Group(bits, 8)[i] == values[..n][i];
    }
  }

  /** Decoding the encoder's text gives back the bytes that lie wholly in the encoded bits. */
  lemma RoundTripPrefix(bytes: Bytes)
    ensures Groups(Covered(8 * |bytes|, 5), 8) <= |bytes|
    ensures Decode(Encode(bytes)) == bytes[..Groups(Covered(8 * |bytes|, 5), 8)]
  {
    var bits := Spread(Naturals(bytes), 8);
    SpreadLength(Naturals(bytes));
    DecodeEncodeBits(bytes);
    OctetsOfSpread(bytes, Covered(|bits|, 5));
  }

  /** The round trip returns floor(5 * floor(8n/5) / 8) of the n bytes: all of them if and only if 5 divides n. */
  lemma RoundTrip(bytes: Bytes)
    ensures 8 * |bytes| / 5 * 5 / 8 <= |bytes|
    ensures Decode(Encode(bytes)) == bytes[..8 * |bytes| / 5 * 5 / 8]
    ensures Decode(Encode(bytes)) == bytes <==> |bytes| % 5 == 0
  {
    var n := |bytes|;
    RoundTripPrefix(bytes);
    GroupsAre(8 * n);
    GroupsAre(8 * n / 5 * 5);
    WholeBytes(n);
  }

  lemma WholeBytes(n: nat)
    ensures 8 * n / 5 * 5 / 8 <= n
    ensures 8 * n / 5 * 5 / 8 == n <==> n % 5 == 0
  {
    var q, r := n / 5, n % 5;
    assert 8 * n / 5 == 8 * q + 8 * r / 5;
  }
}
