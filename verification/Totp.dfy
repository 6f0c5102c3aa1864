/**
  Time-based one-time passwords (internal/master/auth/totp.go; RFC 6238, RFC 4226).

  HMAC-SHA1 is a parameter: any function from a key and a message to 20 bytes.
 */
module Totp {
  import opened Types
  import opened Bits
  import opened BitGroups

  type Hash20 = h: seq<byte> | |h| == 20 witness seq(20, _ => 0)
  type Hmac = (seq<byte>, seq<byte>) -> Hash20

  const PERIOD := 30
  const DIGITS := 6
  const SKEW := 1

  const TWO_63 := 0x8000_0000_0000_0000
  const TWO_64 := 0x1_0000_0000_0000_0000

  /** The conversion of an int64 to uint64, which wraps negative values around. */
  function Uint64(x: int): (u: nat)
    ensures u < TWO_64
  {
    x % TWO_64
  }

  function Counter(timestamp: int): nat {
    Uint64(timestamp) / PERIOD
  }

  // ---------- bytes of the counter ----------

  /** v as n bytes, most significant first. */
  function BigEndian(v: nat, n: nat): (bytes: seq<byte>)
    ensures |bytes| == n
  {
    if n == 0 then [] else BigEndian(v / 256, n - 1) + [v % 256]
  }

  function FromBigEndian(bytes: seq<byte>): nat {
    if bytes == [] then 0 else 256 * FromBigEndian(bytes[..|bytes| - 1]) + bytes[|bytes| - 1]
  }

  function Pow256(n: nat): nat {
    if n == 0 then 1 else 256 * Pow256(n - 1)
  }

  lemma {:induction false} FromToBigEndian(v: nat, n: nat)
    requires v < Pow256(n)
    ensures FromBigEndian(BigEndian(v, n)) == v
  {
    if n != 0 {
      FromToBigEndian(v / 256, n - 1);
      assert BigEndian(v, n)[..n - 1] == BigEndian(v / 256, n - 1);
    }
  }

  lemma FromBigEndianLast(bytes: seq<byte>, last: byte)
    ensures FromBigEndian(bytes + [last]) == 256 * FromBigEndian(bytes) + last
  {
    assert (bytes + [last])[..|bytes|] == bytes;
  }

  lemma Shifted(x: nat, p: nat)
    ensures x * (256 * p) == 256 * (x * p)
  {
  }

  lemma {:induction false} FromBigEndianAppend(a: seq<byte>, b: seq<byte>)
    ensures FromBigEndian(a + b) == FromBigEndian(a) * Pow256(|b|) + FromBigEndian(b)
    decreases |b|
  {
    if b == [] {
      assert a + b == a;
    } else {
      var front, last := b[..|b| - 1], b[|b| - 1];
      assert a + b == (a + front) + [last] && b == front + [last];
      FromBigEndianAppend(a, front);
      FromBigEndianLast(a + front, last);
      FromBigEndianLast(front, last);
      Shifted(FromBigEndian(a), Pow256(|front|));
    }
  }

  /** The most significant byte comes first. */
  lemma CounterBytes(c: nat)
    requires c < TWO_64
    ensures var b := BigEndian(c, 8);
            c == 0x1_0000_0000 * Word(b[0], b[1], b[2], b[3]) + Word(b[4], b[5], b[6], b[7])
  {
    var b := BigEndian(c, 8);
    assert Pow256(2) == 0x1_0000 && Pow256(4) == 0x1_0000_0000 && Pow256(6) == 0x1_0000_0000_0000 && Pow256(8) == TWO_64;
    FromToBigEndian(c, 8);
    FourBytes(b[..4]);
    FourBytes(b[4..]);
    assert b[..4] + b[4..] == b;
    FromBigEndianAppend(b[..4], b[4..]);
  }

  /** The 8-byte encoding of a counter determines the counter. */
  lemma CounterBytesInjective(c: nat, c': nat)
    requires c < TWO_64 && c' < TWO_64 && BigEndian(c, 8) == BigEndian(c', 8)
    ensures c == c'
  {
    assert Pow256(2) == 0x1_0000 && Pow256(4) == 0x1_0000_0000 && Pow256(6) == 0x1_0000_0000_0000 && Pow256(8) == TWO_64;
    FromToBigEndian(c, 8);
    FromToBigEndian(c', 8);
  }

  // ---------- truncation ----------

  /** binary.BigEndian.Uint32 */
  function Uint32(b0: byte, b1: byte, b2: byte, b3: byte): nat {
    Or(Or(Or(b3, Shl32(b2, 8)), Shl32(b1, 16)), Shl32(b0, 24))
  }

  lemma SmallPowers()
    ensures Pow2(4) == 16 && Pow2(8) == 0x100 && Pow2(16) == 0x1_0000 && Pow2(24) == 0x100_0000 && Pow2(31) == 0x8000_0000
  {
    assert Pow2(2) == 4 && Pow2(4) == 16 && Pow2(6) == 64 && Pow2(8) == 0x100 && Pow2(10) == 0x400 && Pow2(12) == 0x1000;
    assert Pow2(14) == 0x4000 && Pow2(16) == 0x1_0000 && Pow2(18) == 0x4_0000 && Pow2(20) == 0x10_0000 && Pow2(22) == 0x40_0000;
    assert Pow2(24) == 0x100_0000 && Pow2(26) == 0x400_0000 && Pow2(28) == 0x1000_0000 && Pow2(30) == 0x4000_0000;
  }

  /** Or-ing x, shifted left by k, onto a word below 2^k adds it at that place. */
  lemma OrShifted(low: nat, x: nat, k: nat, place: nat, shifted: nat)
    requires place == Pow2(k) && shifted == x * place && low < place && shifted < 0x1_0000_0000
    ensures Or(low, Shl32(x, k)) == shifted + low
  {
    assert Shl32(x, k) == shifted;
    OrLow(x, low, k);
    OrComm(low, shifted);
  }

  function Word(b0: nat, b1: nat, b2: nat, b3: nat): nat {
    0x100_0000 * b0 + 0x1_0000 * b1 + 0x100 * b2 + b3
  }

  /** Shifting and or-ing four bytes together is their big-endian value. */
  lemma Uint32IsBigEndian(b0: byte, b1: byte, b2: byte, b3: byte)
    ensures Uint32(b0, b1, b2, b3) == Word(b0, b1, b2, b3)
  {
    SmallPowers();
    OrShifted(b3, b2, 8, 0x100, 0x100 * b2 as nat);
    OrShifted(Word(0, 0, b2, b3), b1, 16, 0x1_0000, 0x1_0000 * b1 as nat);
    OrShifted(Word(0, b1, b2, b3), b0, 24, 0x100_0000, 0x100_0000 * b0 as nat);
  }

  lemma FourBytes(b: seq<byte>)
    requires |b| == 4
    ensures FromBigEndian(b) == Word(b[0], b[1], b[2], b[3])
  {
    assert b[..3][..2] == b[..2] && b[..2][..1] == b[..1] && b[..1][..0] == [];
    assert FromBigEndian(b[..1]) == b[0];
    assert FromBigEndian(b[..2]) == 256 * FromBigEndian(b[..1]) + b[1];
    assert FromBigEndian(b[..3]) == 256 * FromBigEndian(b[..2]) + b[2];
  }

  /** The value of RFC 4226 section 5.3, stated in arithmetic. */
  function Hotp(hash: Hash20): (d: nat)
    ensures d < 1000000
  {
    var offset := hash[19] % 16;
    (FromBigEndian(hash[offset..offset + 4]) % 0x8000_0000) % 1000000
  }

  lemma Masked(x: nat, q: nat, r: nat, k: nat, p: nat)
    requires p == Pow2(k) && x == q * p + r && r < p
    ensures And(x, p - 1) == r
  {
    AndLow(q, r, k);
  }

  lemma LowNibble(x: nat)
    ensures And(x, 0x0f) == x % 16
  {
    SmallPowers();
    Masked(x, x / 16, x % 16, 4, 16);
  }

  lemma Low31(x: nat)
    ensures And(x, 0x7fff_ffff) == x % 0x8000_0000
  {
    SmallPowers();
    Masked(x, x / 0x8000_0000, x % 0x8000_0000, 31, 0x8000_0000);
  }

  /** offset := hash[len(hash)-1] & 0x0f stays in bounds, and the masked word is the arithmetic value. */
  lemma TruncationIsHotp(hash: Hash20)
    ensures var offset := And(hash[19], 0x0f);
            && offset == hash[19] % 16
            && offset + 4 <= 19
            && And(Uint32(hash[offset], hash[offset + 1], hash[offset + 2], hash[offset + 3]), 0x7fff_ffff) % 1000000 == Hotp(hash)
  {
    LowNibble(hash[19]);
    var offset := hash[19] % 16;
    var b := hash[offset..offset + 4];
    Uint32IsBigEndian(b[0], b[1], b[2], b[3]);
    FourBytes(b);
    Low31(FromBigEndian(b));
  }

  // ---------- six digits ----------

  function DigitChar(d: nat): char
    requires d < 10
  {
    ('0' as int + d) as char
  }

  function DigitValue(c: char): int {
    c as int - '0' as int
  }

  predicate IsDigit(c: char) {
    '0' <= c <= '9'
  }

  /** The decimal form of n. */
  function Decimal(n: nat): (s: string)
    ensures |s| >= 1 && forall i :: 0 <= i < |s| ==> IsDigit(s[i])
  {
    if n < 10 then [DigitChar(n)] else Decimal(n / 10) + [DigitChar(n % 10)]
  }

  /** The effect of "%0wd": zeros in front up to width w. */
  function ZeroPadded(s: string, w: nat): string
    decreases w - |s|
  {
    if |s| >= w then s else ZeroPadded("0" + s, w)
  }

  function SixDigits(n: nat): string {
    ZeroPadded(Decimal(n), DIGITS)
  }

  function Number(s: string): int {
    if s == "" then 0 else 10 * Number(s[..|s| - 1]) + DigitValue(s[|s| - 1])
  }

  lemma {:induction false} NumberOfDecimal(n: nat)
    ensures Number(Decimal(n)) == n
  {
    if n < 10 {
      assert Decimal(n)[..0] == "";
    } else {
      NumberOfDecimal(n / 10);
      assert Decimal(n)[..|Decimal(n)| - 1] == Decimal(n / 10);
    }
  }

  lemma {:induction false} NumberIgnoresZero(s: string)
    ensures Number("0" + s) == Number(s)
  {
    if s == "" {
      assert "0" + s == "0" && "0"[..0] == "";
    } else {
      assert ("0" + s)[..|s|] == "0" + s[..|s| - 1];
      NumberIgnoresZero(s[..|s| - 1]);
    }
  }

  lemma {:induction false} PaddingKeepsNumber(s: string, w: nat)
    requires forall i :: 0 <= i < |s| ==> IsDigit(s[i])
    ensures Number(ZeroPadded(s, w)) == Number(s)
    ensures |ZeroPadded(s, w)| == if |s| >= w then |s| else w
    ensures forall i :: 0 <= i < |ZeroPadded(s, w)| ==> IsDigit(ZeroPadded(s, w)[i])
    decreases w - |s|
  {
    if |s| < w {
      NumberIgnoresZero(s);
      PaddingKeepsNumber("0" + s, w);
    }
  }

  function Pow10(w: nat): nat {
    if w == 0 then 1 else 10 * Pow10(w - 1)
  }

  lemma {:induction false} DecimalLength(n: nat, w: nat)
    requires w >= 1 && n < Pow10(w)
    ensures |Decimal(n)| <= w
    decreases w
  {
    if n >= 10 {
      DecimalLength(n / 10, w - 1);
    }
  }

  /** Below a million the format gives exactly six digits, from which the number can be read back. */
  lemma SixDigitsExactly(n: nat)
    requires n < 1000000
    ensures |SixDigits(n)| == 6
    ensures forall i :: 0 <= i < 6 ==> '0' <= SixDigits(n)[i] <= '9'
    ensures Number(SixDigits(n)) == n
  {
    assert Pow10(2) == 100 && Pow10(4) == 10000 && Pow10(6) == 1000000;
    DecimalLength(n, 6);
    PaddingKeepsNumber(Decimal(n), DIGITS);
    NumberOfDecimal(n);
  }

  // ---------- generating and checking a code ----------

  /** The code of RFC 4226 for a counter. */
  function CodeAt(hmac: Hmac, key: seq<byte>, counter: nat): string {
    SixDigits(Hotp(hmac(key, BigEndian(counter, 8))))
  }

  /** Clearing the top bit of a word. */
  lemma TopBitCleared(b0: nat, b1: nat, b2: nat, b3: nat)
    requires b0 < 256 && b1 < 256 && b2 < 256 && b3 < 256
    ensures Word(b0, b1, b2, b3) % 0x8000_0000 == Word(b0 % 128, b1, b2, b3)
  {
    var q := b0 / 128;
    assert Word(b0, b1, b2, b3) == 0x8000_0000 * q + Word(b0 % 128, b1, b2, b3);
    assert Word(b0 % 128, b1, b2, b3) < 0x8000_0000;
  }

  /** Its six digits are the truncated hash of the counter's bytes, written out in bytes. */
  lemma CodeInBytes(hmac: Hmac, key: seq<byte>, counter: nat)
    ensures var h := hmac(key, BigEndian(counter, 8));
            var o := h[19] % 16;
            && |CodeAt(hmac, key, counter)| == 6
            && Number(CodeAt(hmac, key, counter)) == Word(h[o] % 128, h[o + 1], h[o + 2], h[o + 3]) % 1000000
  {
    var h := hmac(key, BigEndian(counter, 8));
    var o := h[19] % 16;
    FourBytes(h[o..o + 4]);
    TopBitCleared(h[o], h[o + 1], h[o + 2], h[o + 3]);
    SixDigitsExactly(Hotp(h));
  }

  /** The example of RFC 4226 section 5.4. */
  lemma HotpExample(h: Hash20)
    requires h[10..14] == [0x50, 0xef, 0x7f, 0x19] && h[19] == 0x5a
    ensures Hotp(h) == 872921
  {
    FourBytes(h[10..14]);
    assert Word(0x50, 0xef, 0x7f, 0x19) == 1357872921;
  }

  /** binary.BigEndian.PutUint64 */
  method PutUint64(buf: array<byte>, v: nat)
    requires buf.Length == 8
    modifies buf
    ensures buf[..] == BigEndian(v, 8)
  {
    var i := 8;
    var rest := v;
    while i > 0
      invariant 0 <= i <= 8
      invariant BigEndian(v, 8) == BigEndian(rest, i) + buf[i..]
    {
      i := i - 1;
      buf[i] := rest % 256;
      rest := rest / 256;
    }
    assert buf[..] == buf[0..];
  }

  /** The byte and bit code of generateCode computes the code of the RFC. */
  method GenerateCode(hmac: Hmac, secret: seq<byte>, timestamp: int) returns (code: string)
    ensures code == CodeAt(hmac, secret, Counter(timestamp))
  {
    var counter := Uint64(timestamp) / PERIOD;
    var buf := new byte[8];
    PutUint64(buf, counter);
    var hash := hmac(secret, buf[..]);
    TruncationIsHotp(hash);
    var offset := And(hash[|hash| - 1], 0x0f);
    var truncated := And(Uint32(hash[offset], hash[offset + 1], hash[offset + 2], hash[offset + 3]), 0x7fff_ffff);
    code := SixDigits(truncated % 1000000);
  }

  function UpperChar(c: char): char {
    if 'a' <= c <= 'z' then (c as int - 32) as char else c
  }

  /** strings.ToUpper on ASCII text. */
  function Upper(s: string): (u: string)
    ensures |u| == |s|
  {
    seq(|s|, i requires 0 <= i < |s| => UpperChar(s[i]))
  }

  /** The key that a stored secret stands for. */
  function KeyOf(secret: string): Option<seq<byte>> {
    Decode(Base32, Upper(secret))
  }

  predicate InWindow(d: int) {
    -SKEW <= d <= SKEW
  }

  /** Some step of the window has this code under the key. */
  ghost predicate Matches(hmac: Hmac, key: seq<byte>, code: string, now: int) {
    exists d :: InWindow(d) && code == CodeAt(hmac, key, Counter(now + PERIOD * d))
  }

  ghost predicate Accepts(hmac: Hmac, secret: string, code: string, now: int) {
    KeyOf(secret).Some? && Matches(hmac, KeyOf(secret).value, code, now)
  }

  lemma WrongLengthIsNoCode(hmac: Hmac, key: seq<byte>, code: string, now: int)
    ensures Matches(hmac, key, code, now) ==> |code| == DIGITS
  {
    forall counter: nat ensures |CodeAt(hmac, key, counter)| == DIGITS {
      SixDigitsExactly(Hotp(hmac(key, BigEndian(counter, 8))));
    }
  }

  /** The loop of ValidateCode over the window. */
  method MatchWindow(hmac: Hmac, key: seq<byte>, code: string, now: int) returns (ok: bool)
    ensures ok <==> Matches(hmac, key, code, now)
  {
    var i := -SKEW;
    while i <= SKEW
      invariant -SKEW <= i <= SKEW + 1
      invariant forall d :: -SKEW <= d < i ==> code != CodeAt(hmac, key, Counter(now + PERIOD * d))
    {
      var expected := GenerateCode(hmac, key, now + PERIOD * i);
      if expected == code {
        assert InWindow(i);
        return true;
      }
      i := i + 1;
    }
    return false;
  }

  method ValidateCode(hmac: Hmac, secret: string, code: string, now: int) returns (ok: bool)
    ensures ok <==> Accepts(hmac, secret, code, now)
  {
    var decoded := KeyOf(secret);
    if |code| != DIGITS {
      if decoded.Some? {
        WrongLengthIsNoCode(hmac, decoded.value, code, now);
      }
      return false;
    }
    if decoded.None? {
      return false;
    }
    ok := MatchWindow(hmac, decoded.value, code, now);
  }

  /** GenerateSecret: the stored form of 20 random bytes. */
  function SecretOf(random: Hash20): string {
    Encode(Base32, random)
  }

  /** A minted secret stands for the bytes it was made from. */
  lemma SecretRoundTrip(random: Hash20)
    ensures KeyOf(SecretOf(random)) == Some(random)
  {
    EncodedChars(Base32, random);
    var s := SecretOf(random);
    assert Upper(s) == s by {
      assert forall i :: 0 <= i < |s| ==> ValueOf(Base32, s[i]).Some?;
    }
    DecodeEncode(Base32, random);
  }

  function LowerChar(c: char): char {
    if 'A' <= c <= 'Z' then (c as int + 32) as char else c
  }

  /** So does a minted secret that is typed in lower case. */
  lemma LowerSecretRoundTrip(random: Hash20)
    ensures var s := SecretOf(random);
            KeyOf(seq(|s|, i requires 0 <= i < |s| => LowerChar(s[i]))) == Some(random)
  {
    var s := SecretOf(random);
    var lower := seq(|s|, i requires 0 <= i < |s| => LowerChar(s[i]));
    SecretRoundTrip(random);
    EncodedChars(Base32, random);
    forall i | 0 <= i < |s| ensures UpperChar(lower[i]) == s[i] {
      assert ValueOf(Base32, s[i]).Some?;
    }
    assert Upper(lower) == s;
    DecodeEncode(Base32, random);
  }

  /** The counter d steps away is the counter plus d exactly when that moment is not before 1970. */
  lemma NeighbourCounter(now: int, d: int)
    requires 0 <= now < TWO_63 && -1 <= d <= 1
    ensures Counter(now + 30 * d) == now / 30 + d <==> now + 30 * d >= 0
    ensures now + 30 * d < 0 ==> Counter(now + 30 * d) == (0x1_0000_0000_0000_0000 + now + 30 * d) / 30
  {
    var t := now + 30 * d;
    if t >= 0 {
      assert t < TWO_64;
      assert t % TWO_64 == t;
      assert t / 30 == now / 30 + d;
    } else {
      assert d == -1 && now < 30;
      assert t % TWO_64 == t + TWO_64;
    }
  }

  /** code is the code of this step, the one before or the one after. */
  predicate OfNearbyStep(hmac: Hmac, key: seq<byte>, code: string, step: int)
    requires step >= 1
  {
    code == CodeAt(hmac, key, step - 1) || code == CodeAt(hmac, key, step) || code == CodeAt(hmac, key, step + 1)
  }

  ghost predicate StepHas(hmac: Hmac, key: seq<byte>, code: string, now: int, d: int) {
    code == CodeAt(hmac, key, Counter(now + 30 * d))
  }

  lemma MatchesOneOfThree(hmac: Hmac, key: seq<byte>, code: string, now: int)
    ensures Matches(hmac, key, code, now)
            <==> StepHas(hmac, key, code, now, -1) || StepHas(hmac, key, code, now, 0) || StepHas(hmac, key, code, now, 1)
  {
    assert forall d :: InWindow(d) <==> d == -1 || d == 0 || d == 1;
    assert Matches(hmac, key, code, now) <==> exists d :: InWindow(d) && StepHas(hmac, key, code, now, d);
  }

  lemma StepCode(hmac: Hmac, key: seq<byte>, code: string, now: int, d: int)
    requires 30 <= now < TWO_63 && -1 <= d <= 1
    ensures StepHas(hmac, key, code, now, d) <==> code == CodeAt(hmac, key, now / 30 + d)
  {
    NeighbourCounter(now, d);
  }

  lemma MatchesNeighbours(hmac: Hmac, key: seq<byte>, code: string, now: int)
    requires 30 <= now < TWO_63
    ensures Matches(hmac, key, code, now) <==> OfNearbyStep(hmac, key, code, now / 30)
  {
    MatchesOneOfThree(hmac, key, code, now);
    StepCode(hmac, key, code, now, -1);
    StepCode(hmac, key, code, now, 0);
    StepCode(hmac, key, code, now, 1);
  }

  /** Main result: from second 30 on, exactly the codes of the three surrounding steps are accepted. */
  lemma WindowIsExact(hmac: Hmac, random: Hash20, code: string, now: int)
    requires 30 <= now < TWO_63
    ensures Accepts(hmac, SecretOf(random), code, now) <==> OfNearbyStep(hmac, random, code, now / 30)
  {
    SecretRoundTrip(random);
    MatchesNeighbours(hmac, random, code, now);
  }

  /** A code is accepted while the two steps differ by at most one, so for at least 30 s either way. */
  lemma CodeStaysGood(hmac: Hmac, random: Hash20, t: int, now: int)
    requires 0 <= t < TWO_63 && 0 <= now < TWO_63
    requires -1 <= t / 30 - now / 30 <= 1 || -30 <= t - now <= 30
    ensures Accepts(hmac, SecretOf(random), CodeAt(hmac, random, Counter(t)), now)
  {
    SecretRoundTrip(random);
    NeighbourCounter(t, 0);
    var d := t / PERIOD - now / PERIOD;
    assert InWindow(d);
    NeighbourCounter(now, d);
    assert now + PERIOD * d >= 0;
    assert Counter(t) == Counter(now + PERIOD * d);
  }
}
