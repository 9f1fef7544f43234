/** Time-based one-time passwords: section 4 of RFC 6238 over the truncation of section 5.3 of RFC 4226. */
module Totp {
  import opened Common
  import opened Base32

  const STEP := 30
  const DIGITS: nat := 6
  const CODES := 1_000_000

  type Digest = d: Bytes | |d| == 20 witness seq(20, i => 0)

  /** HMAC-SHA-1 as any function from key and message to twenty bytes. */
  type Mac = (Bytes, Bytes) -> Digest

  // ---- bitwise operators on naturals ---------------------------------------------------------------

  function BitAnd(a: nat, b: nat): nat {
    if a == 0 || b == 0 then 0 else 2 * BitAnd(a / 2, b / 2) + (if a % 2 == 1 && b % 2 == 1 then 1 else 0)
  }

  function BitOr(a: nat, b: nat): nat
    decreases a + b
  {
    if a == 0 then b else if b == 0 then a
    else 2 * BitOr(a / 2, b / 2) + (if a % 2 == 1 || b % 2 == 1 then 1 else 0)
  }

  function ShiftLeft(a: nat, k: nat): nat
    decreases k, a
  {
    if k == 0 then a else 2 * ShiftLeft(a, k - 1)
  }

  lemma {:induction false} ShiftIsProduct(a: nat, k: nat)
    ensures ShiftLeft(a, k) == a * Pow2(k)
  {
    if k == 0 {
    } else {
      ShiftIsProduct(a, k - 1);
      assert a * (2 * Pow2(k - 1)) == 2 * (a * Pow2(k - 1));
    }
  }

  /** Disjoint bits: OR is addition. */
  lemma {:induction false} OrOfDisjoint(a: nat, k: nat, b: nat)
    requires b < Pow2(k)
    ensures BitOr(ShiftLeft(a, k), b) == ShiftLeft(a, k) + b
  {
    if k == 0 || b == 0 {
    } else {
      OrOfDisjoint(a, k - 1, b / 2);
      assert ShiftLeft(a, k) == 2 * ShiftLeft(a, k - 1);
    }
  }

  lemma ModDouble(a: nat, p: nat)
    requires p >= 1
    ensures a % (2 * p) == 2 * (a / 2 % p) + a % 2
  {
    var q, r := a / 2 / p, 2 * (a / 2 % p) + a % 2;
    assert a / 2 == q * p + a / 2 % p;
    assert a == q * (2 * p) + r by {
      assert q * (2 * p) == 2 * (q * p);
    }
    RemainderUnique(a, 2 * p, q, r);
  }

  lemma RemainderUnique(n: nat, m: nat, q: nat, r: nat)
    requires n == q * m + r && r < m
    ensures n % m == r
  {
    var k := q - n / m;
    assert n == n / m * m + n % m;
    assert k * m == q * m - n / m * m;
    assert k * m == n % m - r;
  }

  lemma AndStep(a: nat, p: nat)
    requires p >= 1
    ensures BitAnd(a, 2 * p - 1) == 2 * BitAnd(a / 2, p - 1) + a % 2
  {
    assert (2 * p - 1) / 2 == p - 1 && (2 * p - 1) % 2 == 1;
  }

  lemma {:induction false} AndMask(a: nat, k: nat)
    ensures BitAnd(a, Pow2(k) - 1) == a % Pow2(k)
  {
    if k == 0 {
    } else {
      var p := Pow2(k - 1);
      assert Pow2(k) == 2 * p;
      AndMask(a / 2, k - 1);
      AndStep(a, p);
      ModDouble(a, p);
    }
  }

  lemma AndMasks(a: nat)
    ensures BitAnd(a, 0x0f) == a % 16 && BitAnd(a, 0x7f) == a % 128
  {
    AndMask(a, 4);
    AndMask(a, 7);
    assert Pow2(2) == 4;
    assert Pow2(4) == 4 * Pow2(2);
    assert Pow2(7) == 8 * Pow2(4);
  }

  // ---- codes -------------------------------------------------------------------------------------------

  /** The k-th digit of a number to some base, counted from the least significant. */
  function DigitOf(n: nat, base: nat, k: nat): (d: nat)
    requires base > 0
    ensures d < base
    decreases k, n
  {
    if k == 0 then n % base else DigitOf(n / base, base, k - 1)
  }

  /** The low `width` bytes, most significant first. */
  function BigEndian(n: nat, width: nat): (r: Bytes)
    ensures |r| == width
  {
    seq(width, i requires 0 <= i < width => DigitOf(n, 256, width - 1 - i) as Byte)
  }

  function ValueOf(bytes: Bytes): nat {
    if bytes == [] then 0 else 256 * ValueOf(bytes[..|bytes| - 1]) + bytes[|bytes| - 1] as nat
  }

  function Offset(d: Digest): (o: nat)
    ensures o + 3 < |d|
  {
    AndMasks(d[19] as nat);
    BitAnd(d[|d| - 1] as nat, 0x0f)
  }

  /** The four bytes at the offset, the top bit cleared. */
  function Truncate(d: Digest): nat {
    var o := Offset(d);
    Join(d[o] as nat, d[o + 1] as nat, d[o + 2] as nat, d[o + 3] as nat)
  }

  function Join(a: nat, b: nat, c: nat, e: nat): nat {
    BitOr(BitOr(BitOr(ShiftLeft(BitAnd(a, 0x7f), 24), ShiftLeft(b, 16)), ShiftLeft(c, 8)), e)
  }

  /** toString().padStart(width, '0') of a number that has at most that many digits. */
  function Decimal(n: nat, width: nat): (s: string)
    ensures |s| == width && forall i :: 0 <= i < width ==> '0' <= s[i] <= '9'
  {
    seq(width, i requires 0 <= i < width => '0' + DigitOf(n, 10, width - 1 - i) as char)
  }

  const MAX_COUNTER := 0x1_0000_0000_0000_0000

  /** Section 5.3 of RFC 4226: the 31-bit big-endian number at the offset that the last byte's low half gives. */
  function HotpValue(mac: Mac, key: Bytes, counter: nat): nat {
    var d := mac(key, BigEndian(counter, 8));
    var o := d[19] as nat % 16;
    ValueOf(d[o..o + 4]) % 0x8000_0000
  }

  /** The six digits of that number. */
  function HotpCode(mac: Mac, key: Bytes, counter: nat): string {
    Decimal(HotpValue(mac, key, counter) % CODES, DIGITS)
  }

  /** Section 4 of RFC 6238, on the decoded secret. Writing a counter outside 64 unsigned bits throws. */
  function CodeFor(mac: Mac, secret: string, forTime: int): Result<string> {
    var counter := forTime / STEP;
    if counter < 0 || MAX_COUNTER <= counter then Err(OUT_OF_RANGE)
    else Ok(HotpCode(mac, Decode(secret), counter))
  }

  method TotpCode(mac: Mac, secret: string, forTime: int) returns (r: Result<string>)
    ensures r == CodeFor(mac, secret, forTime)
  {
    var counter := forTime / STEP;
    if counter < 0 || MAX_COUNTER <= counter {
      return Err(OUT_OF_RANGE);
    }
    var key := Base32Decode(secret);
    var hmac := mac(key, BigEndian(counter, 8));
    TruncationIsBigEndian(hmac);
    r := Ok(Decimal(Truncate(hmac) % CODES, DIGITS));
  }

  predicate SixDigits(code: string) {
    |code| == 6 && forall i :: 0 <= i < 6 ==> '0' <= code[i] <= '9'
  }

  /** Whether one of the tries is the code; a try that throws before that ends the search. */
  function FirstMatch(tries: seq<Result<string>>, code: string): Result<bool> {
    if tries == [] then Ok(false) else
      var c :- tries[0];
      if c == code then Ok(true) else FirstMatch(tries[1..], code)
  }

  function Tries(mac: Mac, secret: string, now: int): (r: seq<Result<string>>)
    ensures |r| == 3
  {
    seq(3, i requires 0 <= i < 3 => CodeFor(mac, secret, now + (i - 1) * STEP))
  }

  function Verify(mac: Mac, secret: string, code: string, now: int): Result<bool> {
    if !SixDigits(code) then Ok(false) else FirstMatch(Tries(mac, secret, now), code)
  }

  method VerifyTotp(mac: Mac, secret: string, code: string, now: int) returns (r: Result<bool>)
    ensures r == Verify(mac, secret, code, now)
  {
    if !SixDigits(code) {
      return Ok(false);
    }
    ghost var tries := Tries(mac, secret, now);
    var drift := -1;
    while drift <= 1
      invariant -1 <= drift <= 2
      invariant FirstMatch(tries, code) == FirstMatch(tries[drift + 1..], code)
    {
      var c :- TotpCode(mac, secret, now + drift * STEP);
      assert tries[drift + 1] == Ok(c);
      if c == code {
        return Ok(true);
      }
      drift := drift + 1;
    }
    r := Ok(false);
  }

  // ---- properties ------------------------------------------------------------------------------------------

  lemma Powers()
    ensures Pow2(8) == 0x100 && Pow2(16) == 0x1_0000 && Pow2(24) == 0x100_0000
  {
    Pow2Values();
    assert Pow2(11) == 8 * Pow2(8);
    assert Pow2(14) == 8 * Pow2(11);
    assert Pow2(16) == 4 * Pow2(14);
    assert Pow2(19) == 8 * Pow2(16);
    assert Pow2(22) == 8 * Pow2(19);
    assert Pow2(24) == 4 * Pow2(22);
  }

  lemma Shifts(a: nat, b: nat, c: nat)
    ensures ShiftLeft(a, 24) == a * 0x100_0000 && ShiftLeft(b, 16) == b * 0x1_0000 && ShiftLeft(c, 8) == c * 0x100
  {
    Powers();
    ShiftIsProduct(a, 24);
    ShiftIsProduct(b, 16);
    ShiftIsProduct(c, 8);
  }

  lemma OrIsSum(a: nat, k: nat, b: nat, bound: nat)
    requires (k == 24 && bound == 0x100_0000) || (k == 16 && bound == 0x1_0000) || (k == 8 && bound == 0x100)
    requires b < bound
    ensures BitOr(a * bound, b) == a * bound + b
  {
    Powers();
    OrOfDisjoint(a, k, b);
    ShiftIsProduct(a, k);
  }

  /** Four bytes put together by shifts and ORs, as a number. */
  lemma ShiftedBytes(a: nat, b: nat, c: nat, e: nat)
    requires a < 128 && b < 256 && c < 256 && e < 256
    ensures BitOr(BitOr(BitOr(ShiftLeft(a, 24), ShiftLeft(b, 16)), ShiftLeft(c, 8)), e)
            == a * 0x100_0000 + b * 0x1_0000 + c * 0x100 + e
  {
    Shifts(a, b, c);
    Shifts(0, a * 256 + b, (a * 256 + b) * 256 + c);
    OrIsSum(a, 24, b * 0x1_0000, 0x100_0000);
    OrIsSum(a * 256 + b, 16, c * 0x100, 0x1_0000);
    OrIsSum((a * 256 + b) * 256 + c, 8, e, 0x100);
  }

  lemma ClearTopBit(a: nat, rest: nat)
    requires rest < 0x100_0000 && a < 256
    ensures a % 128 * 0x100_0000 + rest == (a * 0x100_0000 + rest) % 0x8000_0000
  {
    assert a == 128 * (a / 128) + a % 128;
  }

  lemma SliceValue(d: Digest, o: nat)
    requires o + 3 < |d|
    ensures ValueOf(d[o..o + 4])
            == d[o] as nat * 0x100_0000 + (d[o + 1] as nat * 0x1_0000 + d[o + 2] as nat * 0x100 + d[o + 3] as nat)
  {
    var s := d[o..o + 4];
    assert s[0] == d[o] && s[1] == d[o + 1] && s[2] == d[o + 2] && s[3] == d[o + 3];
    FourBytes(s);
  }

  /** The truncation is the big-endian value of four bytes inside the digest, less the top bit. */
  lemma TruncationIsBigEndian(d: Digest)
    ensures Offset(d) == d[19] as nat % 16 <= 15
    ensures Truncate(d) == ValueOf(d[Offset(d)..Offset(d) + 4]) % 0x8000_0000
  {
    var o := Offset(d);
    var a, b, c, e := d[o] as nat, d[o + 1] as nat, d[o + 2] as nat, d[o + 3] as nat;
    AndMasks(d[19] as nat);
    SliceValue(d, o);
    TruncateBytes(d, o, a, b, c, e);
    ClearTopBit(a, b * 0x1_0000 + c * 0x100 + e);
  }

  lemma TruncateBytes(d: Digest, o: nat, a: nat, b: nat, c: nat, e: nat)
    requires o == Offset(d) && d[o] as nat == a && d[o + 1] as nat == b && d[o + 2] as nat == c && d[o + 3] as nat == e
    ensures Truncate(d) == a % 128 * 0x100_0000 + b * 0x1_0000 + c * 0x100 + e
  {
    AndMasks(a);
    ShiftedBytes(a % 128, b, c, e);
  }

  lemma FourBytes(s: Bytes)
    requires |s| == 4
    ensures ValueOf(s) == s[0] as nat * 0x100_0000 + s[1] as nat * 0x1_0000 + s[2] as nat * 0x100 + s[3] as nat
  {
    assert s[..3][..2] == s[..2] && s[..2][..1] == s[..1] && s[..1][..0] == [];
    assert ValueOf(s[..1]) == s[0] as nat;
    assert ValueOf(s[..2]) == 256 * ValueOf(s[..1]) + s[1] as nat;
    assert ValueOf(s[..3]) == 256 * ValueOf(s[..2]) + s[2] as nat;
  }

  lemma EightMoreBits(n: nat)
    ensures Pow2(n + 8) == 256 * Pow2(n)
  {
    assert Pow2(n + 2) == 2 * Pow2(n + 1);
    assert Pow2(n + 4) == 2 * Pow2(n + 3);
    assert Pow2(n + 6) == 2 * Pow2(n + 5);
    assert Pow2(n + 8) == 2 * Pow2(n + 7);
  }

  lemma HigherBytes(n: nat, width: nat)
    requires width > 0
    ensures BigEndian(n, width) == BigEndian(n / 256, width - 1) + [(n % 256) as Byte]
  {
    forall i | 0 <= i < width - 1
      ensures BigEndian(n, width)[i] == BigEndian(n / 256, width - 1)[i]
    {
      assert DigitOf(n, 256, width - 1 - i) == DigitOf(n / 256, 256, width - 2 - i);
    }
    assert BigEndian(n, width)[width - 1] == DigitOf(n, 256, 0) as Byte;
  }

  /** The counter bytes determine the counter. */
  lemma {:induction false} CounterBytes(n: nat, width: nat)
    requires n < Pow2(8 * width)
    ensures ValueOf(BigEndian(n, width)) == n
  {
    if width == 0 {
    } else {
      EightMoreBits(8 * (width - 1));
      CounterBytes(n / 256, width - 1);
      HigherBytes(n, width);
    }
  }

  lemma HigherDigits(n: nat, width: nat)
    requires width > 0
    ensures Decimal(n, width) == Decimal(n / 10, width - 1) + ['0' + (n % 10) as char]
  {
    forall i | 0 <= i < width - 1
      ensures Decimal(n, width)[i] == Decimal(n / 10, width - 1)[i]
    {
      assert DigitOf(n, 10, width - 1 - i) == DigitOf(n / 10, 10, width - 2 - i);
    }
    assert Decimal(n, width)[width - 1] == '0' + DigitOf(n, 10, 0) as char;
  }

  lemma {:induction false} DecimalDetermines(n: nat, m: nat, width: nat, bound: nat)
    requires bound == Pow10(width) && n < bound && m < bound
    ensures Decimal(n, width) == Decimal(m, width) <==> n == m
  {
    if width == 0 {
    } else {
      DecimalDetermines(n / 10, m / 10, width - 1, bound / 10);
      HigherDigits(n, width);
      HigherDigits(m, width);
      assert Decimal(n, width)[..width - 1] == Decimal(n / 10, width - 1);
      assert Decimal(m, width)[..width - 1] == Decimal(m / 10, width - 1);
      assert Decimal(n, width)[width - 1] == '0' + (n % 10) as char;
      assert Decimal(m, width)[width - 1] == '0' + (m % 10) as char;
    }
  }

  function Pow10(n: nat): (p: nat)
    ensures p >= 1
  {
    if n == 0 then 1 else 10 * Pow10(n - 1)
  }

  // ---- verification against the standard ---------------------------------------------------------------------

  /** The number is what the shifts and ORs of the truncation give. */
  lemma HotpIsTruncation(mac: Mac, key: Bytes, counter: nat)
    ensures HotpValue(mac, key, counter) == Truncate(mac(key, BigEndian(counter, 8)))
    ensures 0 <= HotpValue(mac, key, counter) < 0x8000_0000
  {
    TruncationIsBigEndian(mac(key, BigEndian(counter, 8)));
  }

  lemma CodesAreDecimal(n: nat, m: nat)
    ensures SixDigits(Decimal(n % CODES, DIGITS))
    ensures Decimal(n % CODES, DIGITS) == Decimal(m % CODES, DIGITS) <==> n % CODES == m % CODES
  {
    assert Pow10(3) == 1000;
    assert Pow10(6) == 1000 * Pow10(3);
    DecimalDetermines(n % CODES, m % CODES, 6, CODES);
  }

  /** Two codes agree exactly when their truncated values agree modulo a million; every code is six digits. */
  lemma CodesAgreeIff(mac: Mac, key: Bytes, c: nat, key': Bytes, c': nat)
    ensures SixDigits(HotpCode(mac, key, c))
    ensures HotpCode(mac, key, c) == HotpCode(mac, key', c')
            <==> HotpValue(mac, key, c) % 1_000_000 == HotpValue(mac, key', c') % 1_000_000
  {
    CodesAreDecimal(HotpValue(mac, key, c), HotpValue(mac, key', c'));
  }

  lemma CodeForStep(mac: Mac, secret: string, forTime: int, counter: nat)
    requires STEP * counter <= forTime < STEP * (counter + 1) && counter < MAX_COUNTER
    ensures CodeFor(mac, secret, forTime) == Ok(HotpCode(mac, Decode(secret), counter))
  {
    assert forTime / STEP == counter;
  }

  lemma OneOfThree(tries: seq<Result<string>>, code: string, x: string, y: string, z: string)
    requires |tries| == 3 && tries[0] == Ok(x) && tries[1] == Ok(y) && tries[2] == Ok(z)
    ensures FirstMatch(tries, code) == Ok(code == x || code == y || code == z)
  {
    assert tries[1..][1..][1..] == [];
    assert FirstMatch(tries[1..][1..], code) == Ok(code == z);
    assert FirstMatch(tries[1..], code) == Ok(code == y || code == z);
  }

  lemma TryIs(mac: Mac, secret: string, now: int, i: nat, counter: nat)
    requires i < 3 && counter < MAX_COUNTER && STEP * counter <= now + (i - 1) * STEP < STEP * (counter + 1)
    ensures Tries(mac, secret, now)[i] == Ok(HotpCode(mac, Decode(secret), counter))
  {
    CodeForStep(mac, secret, now + (i - 1) * STEP, counter);
  }

  /** From the second step on, exactly the standard's codes of the previous, current and next step are accepted. */
  lemma AcceptsThreeSteps(mac: Mac, secret: string, code: string, now: int)
    requires 30 <= now < 30 * 0xFFFF_FFFF_FFFF_FFFF
    ensures var c, key := now / 30, Decode(secret);
            Verify(mac, secret, code, now)
            == Ok(code == HotpCode(mac, key, c - 1) || code == HotpCode(mac, key, c)
                  || code == HotpCode(mac, key, c + 1))
  {
    var c, key := now / STEP, Decode(secret);
    TryIs(mac, secret, now, 0, c - 1);
    TryIs(mac, secret, now, 1, c);
    TryIs(mac, secret, now, 2, c + 1);
    OneOfThree(Tries(mac, secret, now), code, HotpCode(mac, key, c - 1), HotpCode(mac, key, c),
               HotpCode(mac, key, c + 1));
    CodesAgreeIff(mac, key, c - 1, key, c);
    CodesAgreeIff(mac, key, c + 1, key, c);
  }

  /** In the first step the previous counter is -1: every well-formed code throws instead of being compared. */
  lemma ThrowsIffFirstStep(mac: Mac, secret: string, code: string, now: int)
    requires 0 <= now < 30 * 0xFFFF_FFFF_FFFF_FFFF && SixDigits(code)
    ensures Verify(mac, secret, code, now).Err? <==> now < 30
  {
    if STEP <= now {
      AcceptsThreeSteps(mac, secret, code, now);
    } else {
      assert (now - STEP) / STEP == -1;
      assert Tries(mac, secret, now)[0] == Err(OUT_OF_RANGE);
    }
  }

  /** A code made at time t is accepted at every now within 30 seconds of t, after the first step. */
  lemma AcceptedWithinThirtySeconds(mac: Mac, secret: string, t: int, now: int)
    requires 0 <= t && 30 <= now < 30 * 0xFFFF_FFFF_FFFF_FFFF && -30 <= now - t <= 30
    ensures CodeFor(mac, secret, t) == Ok(HotpCode(mac, Decode(secret), t / 30))
    ensures Verify(mac, secret, HotpCode(mac, Decode(secret), t / 30), now) == Ok(true)
  {
    var c, k := now / STEP, t / STEP;
    assert k == c - 1 || k == c || k == c + 1;
    CodeForStep(mac, secret, t, k);
    AcceptsThreeSteps(mac, secret, HotpCode(mac, Decode(secret), k), now);
  }

  /** Enrolment: an authenticator that holds the bytes behind a generated secret is accepted in the same window. */
  lemma EnrolledKeyAccepted(mac: Mac, key: Bytes, t: int, now: int)
    requires |key| % 5 == 0
    requires 0 <= t && 30 <= now < 30 * 0xFFFF_FFFF_FFFF_FFFF && -30 <= now - t <= 30
    ensures Verify(mac, Encode(key), HotpCode(mac, key, t / 30), now) == Ok(true)
  {
    RoundTrip(key);
    AcceptedWithinThirtySeconds(mac, Encode(key), t, now);
  }
}
