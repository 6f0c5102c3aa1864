/**
  The base32 and base64 encodings of RFC 4648 in their unpadded form, as used by
  encoding/base32 and encoding/base64: the bits of the input, most significant first,
  are cut into groups of k, the last group is filled up with zero bits, and each group
  selects a character of the alphabet.
 */
module BitGroups {
  import opened Types
  import opened Bits

  type byte = b: int | 0 <= b < 256

  datatype Alphabet = Base32 | Base64Url

  /** Bits per character. */
  function Width(a: Alphabet): nat {
    match a
    case Base32 => 5
    case Base64Url => 6
  }

  function Limit(a: Alphabet): nat {
    match a
    case Base32 => 32
    case Base64Url => 64
  }

  function CharFrom(first: char, n: nat): char
    requires first as int + n < 128
  {
    (first as int + n) as char
  }

  function CharOf(a: Alphabet, v: nat): char
    requires v < Limit(a)
  {
    match a
    case Base32 =>
      if v < 26 then CharFrom('A', v) else CharFrom('2', v - 26)
    case Base64Url =>
      if v < 26 then CharFrom('A', v)
      else if v < 52 then CharFrom('a', v - 26)
      else if v < 62 then CharFrom('0', v - 52)
      else if v == 62 then '-' else '_'
  }

  function ValueOf(a: Alphabet, c: char): Option<nat> {
    match a
    case Base32 =>
      if 'A' <= c <= 'Z' then Some((c - 'A') as nat)
      else if '2' <= c <= '7' then Some((c - '2') as nat + 26)
      else None
    case Base64Url =>
      if 'A' <= c <= 'Z' then Some((c - 'A') as nat)
      else if 'a' <= c <= 'z' then Some((c - 'a') as nat + 26)
      else if '0' <= c <= '9' then Some((c - '0') as nat + 52)
      else if c == '-' then Some(62)
      else if c == '_' then Some(63)
      else None
  }

  lemma ValueOfCharOf(a: Alphabet, v: nat)
    requires v < Limit(a)
    ensures ValueOf(a, CharOf(a, v)) == Some(v)
  {
  }

  // ---------- bits ----------

  /** The w low bits of v, most significant first. */
  function ToBits(v: nat, w: nat): (bits: seq<bool>)
    ensures |bits| == w
  {
    if w == 0 then [] else ToBits(v / 2, w - 1) + [v % 2 == 1]
  }

  function FromBits(bits: seq<bool>): (v: nat)
    ensures v < Pow2(|bits|)
  {
    if bits == [] then 0
    else 2 * FromBits(bits[..|bits| - 1]) + (if bits[|bits| - 1] then 1 else 0)
  }

  lemma {:induction false} FromToBits(v: nat, w: nat)
    requires v < Pow2(w)
    ensures FromBits(ToBits(v, w)) == v
  {
    if w != 0 {
      FromToBits(v / 2, w - 1);
      assert ToBits(v, w)[..w - 1] == ToBits(v / 2, w - 1);
    }
  }

  lemma {:induction false} ToFromBits(bits: seq<bool>)
    ensures ToBits(FromBits(bits), |bits|) == bits
  {
    if bits != [] {
      ToFromBits(bits[..|bits| - 1]);
    }
  }

  function Zeros(n: nat): (bits: seq<bool>)
    ensures |bits| == n
  {
    seq(n, _ => false)
  }

  /** The bits cut into groups of w, the last one filled up with zeros. */
  function Pack(bits: seq<bool>, w: nat): (groups: seq<nat>)
    requires w > 0
    ensures forall i :: 0 <= i < |groups| ==> groups[i] < Pow2(w)
  {
    if bits == [] then []
    else if |bits| < w then [FromBits(bits + Zeros(w - |bits|))]
    else [FromBits(bits[..w])] + Pack(bits[w..], w)
  }

  function Unpack(groups: seq<nat>, w: nat): (bits: seq<bool>)
  {
    if groups == [] then [] else ToBits(groups[0], w) + Unpack(groups[1..], w)
  }

  lemma {:induction false} UnpackLength(groups: seq<nat>, w: nat)
    ensures |Unpack(groups, w)| == |groups| * w
  {
    if groups != [] {
      UnpackLength(groups[1..], w);
      assert |groups| * w == (|groups| - 1) * w + w;
    }
  }

  /** The last, incomplete group. */
  lemma UnpackTail(bits: seq<bool>, w: nat)
    requires 0 < |bits| < w
    ensures Unpack(Pack(bits, w), w) == bits + Zeros(w - |bits|)
  {
    var full := bits + Zeros(w - |bits|);
    ToFromBits(full);
    assert [FromBits(full)][1..] == [];
    assert Unpack([FromBits(full)], w) == ToBits(FromBits(full), w) + [];
  }

  lemma UnpackFirst(bits: seq<bool>, w: nat)
    requires 0 < w <= |bits|
    ensures Unpack(Pack(bits, w), w) == bits[..w] + Unpack(Pack(bits[w..], w), w)
  {
    ToFromBits(bits[..w]);
    assert Pack(bits, w)[1..] == Pack(bits[w..], w);
  }

  /** Unpacking gives the bits back, followed by fewer than w zeros. */
  lemma {:induction false} UnpackPack(bits: seq<bool>, w: nat) returns (pad: nat)
    requires w > 0
    ensures pad < w && Unpack(Pack(bits, w), w) == bits + Zeros(pad)
    ensures |bits| + pad == |Pack(bits, w)| * w
    decreases |bits|
  {
    if bits == [] {
      pad := 0;
    } else if |bits| < w {
      pad := w - |bits|;
      UnpackTail(bits, w);
    } else {
      pad := UnpackPack(bits[w..], w);
      UnpackFirst(bits, w);
      assert bits[..w] + (bits[w..] + Zeros(pad)) == bits + Zeros(pad);
    }
    UnpackLength(Pack(bits, w), w);
  }

  lemma {:induction false} PackUnpack(groups: seq<nat>, w: nat)
    requires w > 0 && forall i :: 0 <= i < |groups| ==> groups[i] < Pow2(w)
    ensures Pack(Unpack(groups, w), w) == groups
  {
    if groups != [] {
      PackUnpack(groups[1..], w);
      FromToBits(groups[0], w);
      var bits := Unpack(groups, w);
      assert bits[..w] == ToBits(groups[0], w) && bits[w..] == Unpack(groups[1..], w);
    }
  }

  lemma Powers()
    ensures Pow2(5) == 32 && Pow2(6) == 64 && Pow2(8) == 256
  {
    assert Pow2(2) == 4 && Pow2(4) == 16 && Pow2(6) == 64 && Pow2(8) == 256;
    assert Pow2(1) == 2 && Pow2(3) == 8 && Pow2(5) == 32;
  }

  // ---------- encoding ----------

  function Encode(a: Alphabet, bytes: seq<byte>): string {
    var groups := Pack(Unpack(bytes, 8), Width(a));
    Powers();
    seq(|groups|, i requires 0 <= i < |groups| => CharOf(a, groups[i]))
  }

  /** Go's decoders skip line breaks anywhere in the input. */
  function StripNewlines(s: string): string {
    if s == [] then []
    else if s[0] == '\n' || s[0] == '\r' then StripNewlines(s[1..])
    else [s[0]] + StripNewlines(s[1..])
  }

  function Values(a: Alphabet, s: string): (values: Option<seq<nat>>)
    ensures values.Some? ==> |values.value| == |s|
  {
    if s == [] then Some([])
    else match (ValueOf(a, s[0]), Values(a, s[1..]))
      case (Some(v), Some(rest)) => Some([v] + rest)
      case _ => None
  }

  /**
    Whole bytes in the last, incomplete group of r characters. One character of base64
    is an error; base32 lets 1, 3 or 6 characters pass and drops them.
   */
  function TailBytes(a: Alphabet, r: nat): Option<nat> {
    match a
    case Base32 => if r == 2 then Some(1) else if r == 4 then Some(2) else if r == 5 then Some(3) else if r == 7 then Some(4) else Some(0)
    case Base64Url => if r == 1 then None else if r == 2 then Some(1) else if r == 3 then Some(2) else Some(0)
  }

  /** How many bytes n characters decode to. */
  function ByteCount(a: Alphabet, n: nat): (count: Option<nat>)
    ensures count.Some? ==> 8 * count.value <= n * Width(a)
  {
    match a
    case Base32 => Some(n / 8 * 5 + TailBytes(a, n % 8).value)
    case Base64Url => if n % 4 == 1 then None else Some(n / 4 * 3 + TailBytes(a, n % 4).value)
  }

  function Decode(a: Alphabet, s: string): Option<seq<byte>> {
    var text := StripNewlines(s);
    match (Values(a, text), ByteCount(a, |text|))
    case (Some(values), Some(count)) =>
      UnpackLength(values, Width(a));
      Powers();
      var groups := Pack(Unpack(values, Width(a))[..8 * count], 8);
      Some(groups)
    case _ => None
  }

  lemma {:induction false} ValuesOfChars(a: Alphabet, groups: seq<nat>, s: string)
    requires |s| == |groups|
    requires forall i :: 0 <= i < |groups| ==> groups[i] < Limit(a) && s[i] == CharOf(a, groups[i])
    ensures StripNewlines(s) == s && Values(a, s) == Some(groups)
  {
    if s != [] {
      ValueOfCharOf(a, groups[0]);
      ValuesOfChars(a, groups[1..], s[1..]);
      assert [s[0]] + s[1..] == s && [groups[0]] + groups[1..] == groups;
    }
  }

  /** An encoding has just enough characters for its bytes. */
  lemma EncodedLength(a: Alphabet, m: nat, n: nat, pad: nat)
    requires 8 * m + pad == n * Width(a) && pad < Width(a)
    ensures ByteCount(a, n) == Some(m)
  {
    match a
    case Base32 =>
      var q, r := m / 5, m % 5;
      assert n / 8 == q && n % 8 == (if r == 0 then 0 else if r == 1 then 2 else if r == 2 then 4 else if r == 3 then 5 else 7);
    case Base64Url =>
      var q, r := m / 3, m % 3;
      assert n / 4 == q && n % 4 == (if r == 0 then 0 else r + 1);
  }

  /** Main result: decoding what was encoded gives the same bytes, for every byte string. */
  lemma DecodeEncode(a: Alphabet, bytes: seq<byte>)
    ensures Decode(a, Encode(a, bytes)) == Some(bytes)
  {
    Powers();
    var w := Width(a);
    var bits := Unpack(bytes, 8);
    var groups := Pack(bits, w);
    var text := Encode(a, bytes);
    ValuesOfChars(a, groups, text);
    UnpackLength(bytes, 8);
    var pad := UnpackPack(bits, w);
    EncodedLength(a, |bytes|, |groups|, pad);
    assert (bits + Zeros(pad))[..8 * |bytes|] == bits;
    PackUnpack(bytes, 8);
  }

  /** Encodings are made of alphabet characters only. */
  lemma EncodedChars(a: Alphabet, bytes: seq<byte>)
    ensures forall i :: 0 <= i < |Encode(a, bytes)| ==> ValueOf(a, Encode(a, bytes)[i]).Some?
  {
    Powers();
    var groups := Pack(Unpack(bytes, 8), Width(a));
    forall i | 0 <= i < |groups| ensures ValueOf(a, Encode(a, bytes)[i]).Some? {
      ValueOfCharOf(a, groups[i]);
    }
  }

  // ---------- what an encoding is, in arithmetic ----------

  /** The alphabet of RFC 4648 section 6. */
  lemma Base32Alphabet(v: nat)
    requires v < 32
    ensures CharOf(Base32, v) == "ABCDEFGHIJKLMNOPQRSTUVWXYZ234567"[v]
  {
  }

  /** The alphabet of RFC 4648 section 5: upper-case and lower-case letters, digits and two signs. */
  lemma Base64UrlAlphabet(v: nat)
    requires v < 64
    ensures v < 26 ==> CharOf(Base64Url, v) == "ABCDEFGHIJKLMNOPQRSTUVWXYZ"[v]
    ensures 26 <= v < 52 ==> CharOf(Base64Url, v) == "abcdefghijklmnopqrstuvwxyz"[v - 26]
    ensures 52 <= v ==> CharOf(Base64Url, v) == "0123456789-_"[v - 52]
  {
  }

  /** Digits of a number, most significant first. */
  function Numeral(digits: seq<nat>, base: nat): nat {
    if digits == [] then 0 else Numeral(digits[..|digits| - 1], base) * base + digits[|digits| - 1]
  }

  lemma FromBitsLast(bits: seq<bool>, c: bool)
    ensures FromBits(bits + [c]) == 2 * FromBits(bits) + (if c then 1 else 0)
  {
    assert (bits + [c])[..|bits|] == bits;
  }

  lemma Doubled(x: nat, p: nat)
    ensures x * (2 * p) == 2 * (x * p)
  {
  }

  lemma {:induction false} FromBitsAppend(a: seq<bool>, b: seq<bool>)
    ensures FromBits(a + b) == FromBits(a) * Pow2(|b|) + FromBits(b)
    decreases |b|
  {
    if b == [] {
      assert a + b == a;
    } else {
      var front := b[..|b| - 1];
      var c := b[|b| - 1];
      assert a + b == (a + front) + [c] && b == front + [c];
      FromBitsAppend(a, front);
      FromBitsLast(a + front, c);
      FromBitsLast(front, c);
      Doubled(FromBits(a), Pow2(|front|));
    }
  }

  lemma {:induction false} ZerosAreNothing(n: nat)
    ensures FromBits(Zeros(n)) == 0
  {
    if n != 0 {
      assert Zeros(n)[..n - 1] == Zeros(n - 1);
      ZerosAreNothing(n - 1);
    }
  }

  lemma {:induction false} UnpackAppend(groups: seq<nat>, g: nat, w: nat)
    ensures Unpack(groups + [g], w) == Unpack(groups, w) + ToBits(g, w)
  {
    if groups == [] {
      assert [g][1..] == [];
    } else {
      assert (groups + [g])[1..] == groups[1..] + [g];
      UnpackAppend(groups[1..], g, w);
    }
  }

  lemma {:induction false} UnpackedNumeral(groups: seq<nat>, w: nat)
    requires forall i :: 0 <= i < |groups| ==> groups[i] < Pow2(w)
    ensures FromBits(Unpack(groups, w)) == Numeral(groups, Pow2(w))
  {
    if groups != [] {
      var front, g := groups[..|groups| - 1], groups[|groups| - 1];
      assert groups == front + [g];
      assert Numeral(groups, Pow2(w)) == Numeral(front, Pow2(w)) * Pow2(w) + g;
      UnpackedNumeral(front, w);
      UnpackAppend(front, g, w);
      FromBitsAppend(Unpack(front, w), ToBits(g, w));
      FromToBits(g, w);
    }
  }

  /**
    The characters of an encoding are the digits of the number that the bytes are the digits of,
    shifted by as many bits as the last character has to spare.
   */
  lemma EncodingIsNumeral(a: Alphabet, bytes: seq<byte>) returns (digits: seq<nat>, pad: nat)
    ensures |Encode(a, bytes)| == |digits|
    ensures forall i :: 0 <= i < |digits| ==> digits[i] < Limit(a) && Encode(a, bytes)[i] == CharOf(a, digits[i])
    ensures Numeral(digits, Limit(a)) == Numeral(bytes, 256) * Pow2(pad)
    ensures pad < Width(a) && 8 * |bytes| + pad == |digits| * Width(a)
  {
    Powers();
    var w := Width(a);
    var bits := Unpack(bytes, 8);
    digits := Pack(bits, w);
    UnpackLength(bytes, 8);
    pad := UnpackPack(bits, w);
    UnpackedNumeral(digits, w);
    UnpackedNumeral(bytes, 8);
    FromBitsAppend(bits, Zeros(pad));
    ZerosAreNothing(pad);
  }

  // ---------- what is decoded, and what is not ----------

  predicate InAlphabet(a: Alphabet, s: string) {
    forall i :: 0 <= i < |s| ==> ValueOf(a, s[i]).Some?
  }

  lemma {:induction false} ValuesExactly(a: Alphabet, s: string)
    ensures Values(a, s).Some? <==> InAlphabet(a, s)
  {
    if s != "" {
      ValuesExactly(a, s[1..]);
      if Values(a, s).Some? {
        assert forall i :: 1 <= i < |s| ==> s[i] == s[1..][i - 1];
      }
    }
  }

  lemma {:induction false} PackLength(bits: seq<bool>, n: nat)
    requires |bits| == 8 * n
    ensures |Pack(bits, 8)| == n
  {
    if n != 0 {
      PackLength(bits[8..], n - 1);
    }
  }

  /** Text with a foreign character is refused, and in base64 a single character left over; line breaks do not count. */
  lemma DecodesExactly(a: Alphabet, s: string)
    ensures var text := StripNewlines(s);
            Decode(a, s).Some? <==> InAlphabet(a, text) && (a == Base64Url ==> |text| % 4 != 1)
  {
    ValuesExactly(a, StripNewlines(s));
  }

  /** Whole bytes in n characters; base32 drops all of a last group that no encoding ends with. */
  function WholeBytes(a: Alphabet, n: nat): nat {
    match a
    case Base32 => if n % 8 in {1, 3, 6} then 5 * (n / 8) else 5 * n / 8
    case Base64Url => 6 * n / 8
  }

  lemma CountIsWholeBytes(a: Alphabet, n: nat)
    requires ByteCount(a, n).Some?
    ensures ByteCount(a, n).value == WholeBytes(a, n)
  {
    match a
    case Base32 =>
      assert n == 8 * (n / 8) + n % 8;
    case Base64Url =>
      assert n == 4 * (n / 4) + n % 4;
  }

  lemma DecodedLength(a: Alphabet, s: string)
    requires Decode(a, s).Some?
    ensures |Decode(a, s).value| == WholeBytes(a, |StripNewlines(s)|)
  {
    var text := StripNewlines(s);
    var count := ByteCount(a, |text|).value;
    UnpackLength(Values(a, text).value, Width(a));
    PackLength(Unpack(Values(a, text).value, Width(a))[..8 * count], count);
    CountIsWholeBytes(a, |text|);
  }

  lemma {:induction false} StripAppend(x: string, y: string)
    ensures StripNewlines(x + y) == StripNewlines(x) + StripNewlines(y)
  {
    if x == "" {
      assert x + y == y;
    } else {
      assert (x + y)[1..] == x[1..] + y;
      StripAppend(x[1..], y);
    }
  }

  /** A line break anywhere makes no difference. */
  lemma LineBreaksAreIgnored(a: Alphabet, x: string, c: char, y: string)
    requires c == '\n' || c == '\r'
    ensures Decode(a, x + [c] + y) == Decode(a, x + y)
  {
    StripAppend(x, y);
    StripAppend(x + [c], y);
    StripAppend(x, [c]);
    assert [c][1..] == "" && StripNewlines([c]) == "";
    assert StripNewlines(x + [c]) == StripNewlines(x);
  }
}
