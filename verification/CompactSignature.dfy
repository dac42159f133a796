/** The compact signature codec: "0x", then yParity, r and s as exactly 65 bytes of
    hexadecimal digits, with the range checks that make each signature unique. */
module CompactSignature {
  import opened Prelude

  /** Order of the secp256k1 group (SEC 2 version 2.0, section 2.4.1). */
  const N: nat := 0xFFFFFFFF_FFFFFFFF_FFFFFFFF_FFFFFFFE_BAAEDCE6_AF48A03B_BFD25E8C_D0364141
  const HALF_N: nat := N / 2

  type Byte = b: int | 0 <= b < 256
  type Nibble = d: int | 0 <= d < 16

  predicate IsHexDigit(c: char) {
    '0' <= c <= '9' || 'a' <= c <= 'f' || 'A' <= c <= 'F'
  }

  predicate IsHex(s: string) {
    forall i :: 0 <= i < |s| ==> IsHexDigit(s[i])
  }

  function DigitValue(c: char): (d: Nibble)
    requires IsHexDigit(c)
  {
    if c <= '9' then c as int - '0' as int
    else if c <= 'F' then c as int - 'A' as int + 10
    else c as int - 'a' as int + 10
  }

  function LowerDigit(d: Nibble): (c: char)
    ensures IsHexDigit(c) && DigitValue(c) == d
  {
    if d < 10 then ('0' as int + d) as char else ('a' as int + d - 10) as char
  }

  // ---------------------------------------------------------------- hex <-> bytes

  function BytesOf(hex: string): (bs: seq<Byte>)
    requires IsHex(hex) && |hex| % 2 == 0
    ensures |bs| == |hex| / 2
  {
    if hex == "" then []
    else [16 * DigitValue(hex[0]) + DigitValue(hex[1])] + BytesOf(hex[2..])
  }

  /** Buffer.toString("hex"): always lower case. */
  function ToHex(bs: seq<Byte>): (hex: string)
    ensures |hex| == 2 * |bs| && IsHex(hex)
  {
    if bs == [] then "" else [LowerDigit(bs[0] / 16), LowerDigit(bs[0] % 16)] + ToHex(bs[1..])
  }

  lemma NibblesOfByte(hi: Nibble, lo: Nibble)
    ensures (16 * hi + lo) / 16 == hi && (16 * hi + lo) % 16 == lo
  {
  }

  lemma LowerDigitOf(c: char)
    requires IsHexDigit(c)
    ensures LowerDigit(DigitValue(c)) == LowerChar(c)
  {
  }

  lemma {:induction false} HexOfBytes(hex: string)
    requires IsHex(hex) && |hex| % 2 == 0
    ensures ToHex(BytesOf(hex)) == Lower(hex)
    decreases |hex|
  {
    if hex != "" {
      HexOfBytes(hex[2..]);
      var b := 16 * DigitValue(hex[0]) + DigitValue(hex[1]);
      assert BytesOf(hex)[0] == b && BytesOf(hex)[1..] == BytesOf(hex[2..]);
      NibblesOfByte(DigitValue(hex[0]), DigitValue(hex[1]));
      LowerDigitOf(hex[0]);
      LowerDigitOf(hex[1]);
      hide DigitValue, LowerDigit, LowerChar;
      assert Lower(hex) == [LowerChar(hex[0]), LowerChar(hex[1])] + Lower(hex[2..]);
    }
  }

  // ------------------------------------------------------------- digits <-> numbers

  function Pow16(k: nat): nat {
    if k == 0 then 1 else 16 * Pow16(k - 1)
  }

  /** BigInt of a hexadecimal literal. */
  function NatOf(hex: string): nat
    requires IsHex(hex)
  {
    if hex == "" then 0 else 16 * NatOf(hex[..|hex| - 1]) + DigitValue(hex[|hex| - 1])
  }

  /** A number as exactly `k` lower-case digits. */
  function Digits(n: nat, k: nat): (hex: string)
    ensures |hex| == k && IsHex(hex)
  {
    if k == 0 then "" else Digits(n / 16, k - 1) + [LowerDigit(n % 16)]
  }

  lemma {:induction false} NumberOfDigits(n: nat, k: nat)
    requires n < Pow16(k)
    ensures NatOf(Digits(n, k)) == n
    decreases k
  {
    if k > 0 {
      NumberOfDigits(n / 16, k - 1);
      assert Digits(n, k)[..k - 1] == Digits(n / 16, k - 1);
    }
  }

  lemma {:induction false} BelowPower(hex: string)
    requires IsHex(hex)
    ensures NatOf(hex) < Pow16(|hex|)
    decreases |hex|
  {
    if hex != "" { BelowPower(hex[..|hex| - 1]); }
  }

  lemma SplitDigit(n: nat, d: nat)
    requires d < 16
    ensures (16 * n + d) / 16 == n && (16 * n + d) % 16 == d
  {
  }

  lemma DigitLowered(c: char)
    requires IsHexDigit(c)
    ensures LowerDigit(DigitValue(c)) == LowerChar(c) && IsHexDigit(LowerChar(c)) && DigitValue(LowerChar(c)) == DigitValue(c)
  {
  }

  lemma {:induction false} DigitsOfNumber(hex: string)
    requires IsHex(hex)
    ensures Digits(NatOf(hex), |hex|) == Lower(hex) && NatOf(hex) < Pow16(|hex|) && NatOf(Lower(hex)) == NatOf(hex)
    decreases |hex|
  {
    LowerIsHex(hex);
    BelowPower(hex);
    hide Pow16;
    if hex != "" {
      var front := hex[..|hex| - 1];
      DigitsOfNumber(front);
      SplitDigit(NatOf(front), DigitValue(hex[|hex| - 1]));
      DigitLowered(hex[|hex| - 1]);
      hide DigitValue, LowerDigit, LowerChar;
      assert Lower(hex) == Lower(front) + [LowerChar(hex[|hex| - 1])];
      assert Lower(hex)[..|hex| - 1] == Lower(front);
    }
  }

  lemma LowerIsHex(hex: string)
    requires IsHex(hex)
    ensures IsHex(Lower(hex)) && |Lower(hex)| == |hex|
  {
  }

  lemma {:induction false} DigitsAreLower(n: nat, k: nat)
    ensures Lower(Digits(n, k)) == Digits(n, k)
    decreases k
  {
    if k > 0 {
      DigitsAreLower(n / 16, k - 1);
      assert Lower(Digits(n, k)) == Lower(Digits(n / 16, k - 1)) + [LowerChar(LowerDigit(n % 16))];
    }
  }

  // --------------------------------------------------------------------- the parser

  datatype Fault = NotPrefixed | NotExactHex | BadParity | ROutOfRange | SNotLow
  datatype Outcome<T> = Ok(value: T) | Rejected(fault: Fault)

  function CanonicalHex(value: string, bytes: nat): Outcome<seq<Byte>> {
    if !("0x" <= value) then Rejected(NotPrefixed)
    else
      var hex := value[2..];
      if |hex| != 2 * bytes || !IsHex(hex) then Rejected(NotExactHex) else Ok(BytesOf(hex))
  }

  datatype Compact = Compact(yParity: nat, r: string, s: string)

  function Parse(signature: string): Outcome<Compact> {
    match CanonicalHex(signature, 65)
    case Rejected(f) => Rejected(f)
    case Ok(bytes) =>
      var hex := ToHex(bytes);
      if |bytes| != 65 then Rejected(NotExactHex)
      else if bytes[0] != 0 && bytes[0] != 1 then Rejected(BadParity)
      else if NatOf(hex[2..66]) < 1 || NatOf(hex[2..66]) >= N then Rejected(ROutOfRange)
      else if NatOf(hex[66..]) < 1 || NatOf(hex[66..]) > HALF_N then Rejected(SNotLow)
      else Ok(Compact(bytes[0], "0x" + hex[2..66], "0x" + hex[66..]))
  }

  predicate InRange(y: nat, r: nat, s: nat) {
    y <= 1 && 1 <= r < N && 1 <= s <= HALF_N
  }

  /** The printed form of a signature. */
  function Print(y: nat, r: nat, s: nat): string {
    "0x" + (Digits(y, 2) + Digits(r, 64) + Digits(s, 64))
  }

  /** What parsing reads out of any well-formed string, before the range checks. */
  lemma ParseReads(signature: string)
    requires CanonicalHex(signature, 65).Ok?
    ensures var hex := Lower(signature[2..]);
            IsHex(hex) && |hex| == 130 &&
            var y, r, s := NatOf(hex[..2]), NatOf(hex[2..66]), NatOf(hex[66..]);
            Parse(signature) ==
              if y > 1 then Rejected(BadParity)
              else if r < 1 || r >= N then Rejected(ROutOfRange)
              else if s < 1 || s > HALF_N then Rejected(SNotLow)
              else Ok(Compact(y, "0x" + hex[2..66], "0x" + hex[66..]))
  {
    var hex := signature[2..];
    HexOfBytes(hex);
    LowerIsHex(hex);
    var low := Lower(hex);
    assert low[..2][..1][..0] == "" && low[..2][..1][0] == low[0] && low[..2][1] == low[1];
    assert NatOf(low[..2]) == 16 * NatOf(low[..2][..1]) + DigitValue(low[1]);
    assert BytesOf(hex)[0] == 16 * DigitValue(hex[0]) + DigitValue(hex[1]);
  }

  lemma SplitDigits(y: nat, r: nat, s: nat)
    ensures var hex := Print(y, r, s)[2..];
            && |hex| == 130 && IsHex(hex) && Lower(hex) == hex
            && hex[..2] == Digits(y, 2) && hex[2..66] == Digits(r, 64) && hex[66..] == Digits(s, 64)
  {
    DigitsAreLower(y, 2);
    DigitsAreLower(r, 64);
    DigitsAreLower(s, 64);
    var hex := Print(y, r, s)[2..];
    assert hex == Digits(y, 2) + Digits(r, 64) + Digits(s, 64);
    assert Lower(hex) == Lower(Digits(y, 2)) + Lower(Digits(r, 64)) + Lower(Digits(s, 64));
  }

  lemma Capacity()
    ensures N < Pow16(64) && Pow16(2) == 256
  {
    assert Pow16(8) == 0x1_0000_0000;
    PowAdds(8, 8);
    PowAdds(16, 16);
    PowAdds(32, 32);
  }

  lemma {:induction false} PowAdds(a: nat, b: nat)
    ensures Pow16(a + b) == Pow16(a) * Pow16(b)
    decreases a
  {
    if a > 0 {
      PowAdds(a - 1, b);
      assert Pow16(a + b) == 16 * Pow16(a - 1 + b);
      assert 16 * (Pow16(a - 1) * Pow16(b)) == (16 * Pow16(a - 1)) * Pow16(b);
    }
  }

  /** Parsing the printed form of a triple that fits the fields accepts it exactly when it
      is in range, and gives the same triple back. */
  lemma ParsePrinted(y: nat, r: nat, s: nat)
    requires y < 256 && r < Pow16(64) && s < Pow16(64)
    ensures Parse(Print(y, r, s)).Ok? <==> InRange(y, r, s)
    ensures InRange(y, r, s) ==> Parse(Print(y, r, s)) == Ok(Compact(y, "0x" + Digits(r, 64), "0x" + Digits(s, 64)))
    ensures NatOf(Digits(r, 64)) == r && NatOf(Digits(s, 64)) == s
  {
    hide Pow16, Digits, NatOf, Parse;
    Capacity();
    SplitDigits(y, r, s);
    NumberOfDigits(y, 2);
    NumberOfDigits(r, 64);
    NumberOfDigits(s, 64);
    assert "0x" <= Print(y, r, s);
    ParseReads(Print(y, r, s));
  }

  /** Printing what was parsed gives back the input in lower case, and what was parsed is
      in range: with ParsePrinted, the accepted strings are exactly the printed forms of
      the triples in range, up to the case of the digits. */
  lemma PrintParsed(signature: string)
    requires Parse(signature).Ok?
    ensures var c := Parse(signature).value;
            && |c.r| == 66 && |c.s| == 66 && IsHex(c.r[2..]) && IsHex(c.s[2..])
            && InRange(c.yParity, NatOf(c.r[2..]), NatOf(c.s[2..]))
            && Print(c.yParity, NatOf(c.r[2..]), NatOf(c.s[2..])) == Lower(signature)
  {
    hide Pow16, Digits, NatOf, Parse, CanonicalHex, Print;
    NotCanonicalRejected(signature);
    ParseReads(signature);
    var hex := Lower(signature[2..]);
    var c := Parse(signature).value;
    assert c.r[2..] == hex[2..66] && c.s[2..] == hex[66..];
    PrintRead(hex);
    assert Lower(signature) == "0x" + hex;
  }

  /** Printing the three numbers read from a lower-case string gives the string back. */
  lemma PrintRead(hex: string)
    requires IsHex(hex) && |hex| == 130 && Lower(hex) == hex
    ensures Print(NatOf(hex[..2]), NatOf(hex[2..66]), NatOf(hex[66..])) == "0x" + hex
  {
    hide Pow16, Digits, NatOf;
    DigitsOfNumber(hex[..2]);
    DigitsOfNumber(hex[2..66]);
    DigitsOfNumber(hex[66..]);
    assert Lower(hex[..2]) == Lower(hex)[..2] && Lower(hex[2..66]) == Lower(hex)[2..66] && Lower(hex[66..]) == Lower(hex)[66..];
    assert hex == hex[..2] + hex[2..66] + hex[66..];
  }

  lemma NotCanonicalRejected(signature: string)
    ensures Parse(signature).Ok? ==> CanonicalHex(signature, 65).Ok?
    ensures Parse(signature).Ok? ==> "0x" <= signature && IsHex(signature[2..]) && |signature| == 132
  {
  }

  /** The accepted strings, exactly: "0x" and then, in digits of any case, a triple in range. */
  lemma AcceptedExactly(signature: string)
    ensures Parse(signature).Ok? <==>
              && "0x" <= signature
              && exists y: nat, r: nat, s: nat :: InRange(y, r, s) && Lower(signature) == Print(y, r, s)
  {
    if Parse(signature).Ok? {
      NotCanonicalRejected(signature);
      PrintParsed(signature);
    } else if "0x" <= signature {
      hide Pow16, Digits, NatOf, Parse, Print;
      forall y: nat, r: nat, s: nat | InRange(y, r, s) ensures Lower(signature) != Print(y, r, s) {
        if Lower(signature) == Print(y, r, s) { PrintedAnyCase(signature, y, r, s); }
      }
    }
  }

  lemma PrintedAnyCase(signature: string, y: nat, r: nat, s: nat)
    requires "0x" <= signature && InRange(y, r, s) && Lower(signature) == Print(y, r, s)
    ensures Parse(signature).Ok?
  {
    hide Pow16, Digits, NatOf, Parse, Print;
    Capacity();
    SplitDigits(y, r, s);
    var hex := signature[2..];
    assert Lower(hex) == Lower(signature)[2..] == Print(y, r, s)[2..];
    assert |hex| == |Lower(hex)| == 130;
    forall i | 0 <= i < |hex| ensures IsHexDigit(hex[i]) { assert Lower(hex)[i] == LowerChar(hex[i]); }
    ParseReads(signature);
    NumberOfDigits(y, 2);
    NumberOfDigits(r, 64);
    NumberOfDigits(s, 64);
  }

  /** Two accepted signatures read as the same triple exactly when they are the same string
      up to the case of the digits: acceptance leaves no other freedom. */
  lemma OneStringPerTriple(a: string, b: string)
    requires Parse(a).Ok? && Parse(b).Ok?
    ensures Parse(a).value == Parse(b).value <==> Lower(a) == Lower(b)
  {
    hide Parse, Digits, NatOf, Pow16;
    PrintParsed(a);
    PrintParsed(b);
    if Lower(a) == Lower(b) {
      NotCanonicalRejected(a);
      NotCanonicalRejected(b);
      ParseReads(a);
      ParseReads(b);
      assert Lower(a[2..]) == Lower(a)[2..] && Lower(b[2..]) == Lower(b)[2..];
    }
  }

  /** For every s below the group order, exactly one of s and its negation is accepted,
      whatever the parities: a signature has no second, negated form. */
  lemma ExactlyOneOfNegation(y: nat, y': nat, r: nat, s: nat)
    requires y <= 1 && y' <= 1 && 1 <= r < N && 1 <= s < N
    ensures Parse(Print(y, r, s)).Ok? <==> !Parse(Print(y', r, N - s)).Ok?
  {
    hide Pow16, Digits, Parse;
    Capacity();
    ParsePrinted(y, r, s);
    ParsePrinted(y', r, N - s);
    assert N % 2 == 1;
  }

  // ---------------------------------------------------------------- verification

  /** The curve operations, which this model does not look into. */
  datatype Curve = Curve(
    addressOf: seq<Byte> -> Option<string>,
    recover: (string, Compact) -> Option<string>)

  function AddressOf(curve: Curve, publicKey: string): Option<string> {
    match CanonicalHex(publicKey, 64)
    case Ok(bytes) => curve.addressOf(bytes)
    case Rejected(_) => None
  }

  /** Every failure on the way, including one of the curve operations, is a refusal. */
  predicate Verify(curve: Curve, message: string, publicKey: string, signature: string) {
    var expected := AddressOf(curve, publicKey);
    expected.Some? && Parse(signature).Ok? && curve.recover(message, Parse(signature).value) == expected
  }

  lemma {:induction false} BytesIgnoreCase(a: string, b: string)
    requires IsHex(a) && IsHex(b) && |a| % 2 == 0 && Lower(a) == Lower(b)
    ensures |a| == |b| && BytesOf(a) == BytesOf(b)
    decreases |a|
  {
    assert |a| == |Lower(a)| == |Lower(b)| == |b|;
    if a != "" {
      assert Lower(a)[0] == Lower(b)[0] && Lower(a)[1] == Lower(b)[1];
      assert Lower(a[2..]) == Lower(a)[2..] && Lower(b[2..]) == Lower(b)[2..];
      BytesIgnoreCase(a[2..], b[2..]);
    }
  }

  lemma {:induction false} BytesOfHex(bs: seq<Byte>)
    ensures BytesOf(ToHex(bs)) == bs
    decreases |bs|
  {
    if bs != [] {
      BytesOfHex(bs[1..]);
      assert ToHex(bs)[2..] == ToHex(bs[1..]);
    }
  }

  lemma {:induction false} HexIsLower(bs: seq<Byte>)
    ensures Lower(ToHex(bs)) == ToHex(bs)
    decreases |bs|
  {
    if bs != [] {
      HexIsLower(bs[1..]);
      assert Lower(ToHex(bs)) == [LowerDigit(bs[0] / 16), LowerDigit(bs[0] % 16)] + Lower(ToHex(bs[1..]));
    }
  }

  /** What a field of exactly `n` bytes reads: the bytes it spells, in digits of any case. */
  lemma FieldExactly(text: string, n: nat, bs: seq<Byte>)
    ensures CanonicalHex(text, n) == Ok(bs) <==> "0x" <= text && |bs| == n && Lower(text) == "0x" + ToHex(bs)
  {
    hide BytesOf, ToHex;
    if "0x" <= text {
      var hex := text[2..];
      assert Lower(text) == "0x" + Lower(hex) && Lower(text)[2..] == Lower(hex);
      if CanonicalHex(text, n) == Ok(bs) {
        HexOfBytes(hex);
      } else if |bs| == n && Lower(text) == "0x" + ToHex(bs) {
        assert Lower(hex) == ToHex(bs);
        forall i | 0 <= i < |hex| ensures IsHexDigit(hex[i]) { assert Lower(hex)[i] == LowerChar(hex[i]); }
        HexIsLower(bs);
        BytesIgnoreCase(hex, ToHex(bs));
        BytesOfHex(bs);
      }
    }
  }

  /** A signature reads as a triple exactly when it spells it. */
  lemma TripleExactly(signature: string, y: nat, r: nat, s: nat)
    requires InRange(y, r, s)
    ensures Parse(signature) == Ok(Compact(y, "0x" + Digits(r, 64), "0x" + Digits(s, 64)))
            <==> "0x" <= signature && Lower(signature) == Print(y, r, s)
  {
    hide Parse, Digits, NatOf, Pow16, Print;
    Capacity();
    ParsePrinted(y, r, s);
    SplitDigits(y, r, s);
    assert "0x" <= Print(y, r, s) && Lower(Print(y, r, s)) == Print(y, r, s) by { PrintIsLower(y, r, s); }
    if Parse(signature).Ok? {
      NotCanonicalRejected(signature);
      OneStringPerTriple(signature, Print(y, r, s));
    } else if "0x" <= signature && Lower(signature) == Print(y, r, s) {
      PrintedAnyCase(signature, y, r, s);
    }
  }

  lemma PrintIsLower(y: nat, r: nat, s: nat)
    ensures "0x" <= Print(y, r, s) && Lower(Print(y, r, s)) == Print(y, r, s)
  {
    hide Digits;
    SplitDigits(y, r, s);
    assert Print(y, r, s) == "0x" + Print(y, r, s)[2..];
  }

  /** `key` and `signature` spell a public key of 64 bytes and a triple in range, and the
      address recovered from the triple and the message is the key's. */
  ghost predicate Proves(
    curve: Curve, message: string, key: string, signature: string, bs: seq<Byte>, y: nat, r: nat, s: nat)
  {
    && "0x" <= key && |bs| == 64 && Lower(key) == "0x" + ToHex(bs)
    && "0x" <= signature && InRange(y, r, s) && Lower(signature) == Print(y, r, s)
    && curve.addressOf(bs).Some?
    && curve.recover(message, Compact(y, "0x" + Digits(r, 64), "0x" + Digits(s, 64))) == curve.addressOf(bs)
  }

  /** A signature verifies exactly when it and the key spell a triple and a key that prove
      the message. */
  lemma VerifiesExactly(curve: Curve, message: string, key: string, signature: string)
    ensures Verify(curve, message, key, signature)
            <==> exists bs: seq<Byte>, y: nat, r: nat, s: nat :: Proves(curve, message, key, signature, bs, y, r, s)
  {
    hide Parse, Digits, NatOf, Pow16, Print, CanonicalHex, ToHex;
    if Verify(curve, message, key, signature) {
      var bs := CanonicalHex(key, 64).value;
      FieldExactly(key, 64, bs);
      PrintParsed(signature);
      NotCanonicalRejected(signature);
      var c := Parse(signature).value;
      var y, r, s := c.yParity, NatOf(c.r[2..]), NatOf(c.s[2..]);
      TripleExactly(signature, y, r, s);
      assert Proves(curve, message, key, signature, bs, y, r, s);
    }
    forall bs: seq<Byte>, y: nat, r: nat, s: nat | Proves(curve, message, key, signature, bs, y, r, s)
      ensures Verify(curve, message, key, signature)
    {
      FieldExactly(key, 64, bs);
      TripleExactly(signature, y, r, s);
    }
  }

  /** A verifying signature stays valid under a change of digit case of signature and key,
      and never has a verifying negated form, whatever the curve operations answer. */
  lemma VerifiedForms(curve: Curve, message: string, key: string, key': string, a: string, b: string, y: nat)
    requires y <= 1 && Verify(curve, message, key, a)
    requires CanonicalHex(key', 64).Ok? && Lower(key') == Lower(key)
    ensures Parse(b).Ok? && Lower(a) == Lower(b) ==> Verify(curve, message, key', b)
    ensures var c := Parse(a).value;
            && IsHex(c.r[2..]) && IsHex(c.s[2..]) && NatOf(c.s[2..]) < N
            && !Verify(curve, message, key', Print(y, NatOf(c.r[2..]), N - NatOf(c.s[2..])))
  {
    hide Parse, NatOf, Pow16, Digits, Print;
    assert CanonicalHex(key, 64).Ok?;
    assert Lower(key[2..]) == Lower(key)[2..] && Lower(key'[2..]) == Lower(key')[2..];
    BytesIgnoreCase(key[2..], key'[2..]);
    PrintParsed(a);
    if Parse(b).Ok? { OneStringPerTriple(a, b); }
    var c := Parse(a).value;
    var r, s := NatOf(c.r[2..]), NatOf(c.s[2..]);
    Capacity();
    ParsePrinted(c.yParity, r, s);
    ExactlyOneOfNegation(c.yParity, y, r, s);
  }
}
