/**
  Bytes, little-endian integers, compact integers (Polkadot Protocol
  Specification, SCALE Codec, "Length and Compact Encoding") and lower-case hex.
 */
module Scale {
  import opened Common

  type Byte = x: int | 0 <= x < 256
  type Bytes = seq<Byte>

  function Pow256(k: nat): (p: nat)
    ensures p > 0
  {
    if k == 0 then 1 else 256 * Pow256(k - 1)
  }

  // ----- Little-endian integers -----

  function ToLE(n: nat, k: nat): (b: Bytes)
    ensures |b| == k
  {
    if k == 0 then [] else [(n % 256) as Byte] + ToLE(n / 256, k - 1)
  }

  function FromLE(b: Bytes): nat {
    if b == [] then 0 else b[0] as nat + 256 * FromLE(b[1..])
  }

  lemma {:induction false} FromToLE(n: nat, k: nat)
    requires n < Pow256(k)
    ensures FromLE(ToLE(n, k)) == n
  {
    if k > 0 {
      FromToLE(n / 256, k - 1);
      assert ToLE(n, k)[1..] == ToLE(n / 256, k - 1);
    }
  }

  /** How many bytes a positive integer needs. */
  function ByteLength(n: nat): (k: nat) {
    if n == 0 then 0 else 1 + ByteLength(n / 256)
  }

  lemma {:induction false} ByteLengthFits(n: nat)
    ensures n < Pow256(ByteLength(n))
    ensures n > 0 ==> ByteLength(n) > 0 && Pow256(ByteLength(n) - 1) <= n
  {
    if n > 0 {
      ByteLengthFits(n / 256);
    }
  }

  lemma {:induction false} PowGrows(j: nat, k: nat)
    requires j <= k
    ensures Pow256(j) <= Pow256(k)
  {
    if j < k {
      PowGrows(j, k - 1);
    }
  }

  /** An integer below a power of 256 needs no more bytes than its exponent. */
  lemma ByteLengthAtMost(n: nat, k: nat)
    requires n < Pow256(k)
    ensures ByteLength(n) <= k
  {
    ByteLengthFits(n);
    PowGrows(k, Max(k, ByteLength(n) - 1));
  }

  lemma ByteLengthAtLeast(n: nat, k: nat)
    requires k > 0 && Pow256(k - 1) <= n
    ensures ByteLength(n) >= k
  {
    ByteLengthFits(n);
    PowGrows(ByteLength(n), Max(ByteLength(n), k - 1));
  }

  // ----- Compact integers -----

  /** The longest the encoding takes: 67 bytes after the first. */
  const MAX_COMPACT_BYTES := 67

  predicate Compactable(n: nat) {
    ByteLength(n) <= MAX_COMPACT_BYTES
  }

  function Compact(n: nat): (b: Bytes)
    requires Compactable(n)
    ensures |b| > 0
  {
    if n < 0x40 then [(4 * n) as Byte]
    else if n < 0x4000 then ToLE(4 * n + 1, 2)
    else if n < 0x4000_0000 then ToLE(4 * n + 2, 4)
    else
      BigNeedsFour(n);
      [(4 * (ByteLength(n) - 4) + 3) as Byte] + ToLE(n, ByteLength(n))
  }

  lemma BigNeedsFour(n: nat)
    requires n >= 0x4000_0000
    ensures ByteLength(n) >= 4
  {
    assert Pow256(3) == 0x100_0000 by {
      assert Pow256(1) == 256 && Pow256(2) == 0x1_0000;
    }
    ByteLengthAtLeast(n, 4);
  }

  datatype Read<T> = Read(value: T, rest: Bytes)

  /** Reads a compact integer as a lenient reader does: forms longer than needed are read too. */
  function ReadCompact(b: Bytes): Option<Read<nat>> {
    if b == [] then None
    else
      match b[0] % 4
      case 0 => Some(Read(b[0] / 4, b[1..]))
      case 1 => if |b| < 2 then None else Some(Read(FromLE(b[..2]) / 4, b[2..]))
      case 2 => if |b| < 4 then None else Some(Read(FromLE(b[..4]) / 4, b[4..]))
      case _ =>
        var k := b[0] / 4 + 4;
        if |b| < k + 1 then None else Some(Read(FromLE(b[1..k + 1]), b[k + 1..]))
  }

  lemma ReadShort(n: nat, mode: nat, k: nat, rest: Bytes)
    requires (mode == 1 && k == 2) || (mode == 2 && k == 4)
    requires 4 * n + mode < Pow256(k)
    ensures ReadCompact(ToLE(4 * n + mode, k) + rest) == Some(Read(n, rest))
  {
    var b := ToLE(4 * n + mode, k) + rest;
    FromToLE(4 * n + mode, k);
    assert b[..k] == ToLE(4 * n + mode, k) && b[k..] == rest;
    assert b[0] == (4 * n + mode) % 256;
  }

  lemma ReadBig(n: nat, rest: Bytes)
    requires n >= 0x4000_0000 && Compactable(n)
    ensures ReadCompact(Compact(n) + rest) == Some(Read(n, rest))
  {
    BigNeedsFour(n);
    ByteLengthFits(n);
    FromToLE(n, ByteLength(n));
    var b := Compact(n) + rest;
    assert b[1..ByteLength(n) + 1] == ToLE(n, ByteLength(n));
    assert b[ByteLength(n) + 1..] == rest;
  }

  /** Reading a compact integer gives it back, and what follows it. */
  lemma CompactReads(n: nat, rest: Bytes)
    requires Compactable(n)
    ensures ReadCompact(Compact(n) + rest) == Some(Read(n, rest))
  {
    assert Pow256(2) == 0x1_0000 && Pow256(4) == 0x1_0000_0000 by {
      assert Pow256(1) == 256 && Pow256(3) == 0x100_0000;
    }
    if n < 0x40 {
      assert (Compact(n) + rest)[1..] == rest;
    } else if n < 0x4000 {
      ReadShort(n, 1, 2, rest);
    } else if n < 0x4000_0000 {
      ReadShort(n, 2, 4, rest);
    } else {
      ReadBig(n, rest);
    }
  }

  // ----- Hex -----

  predicate IsHexDigit(c: char) {
    '0' <= c <= '9' || 'a' <= c <= 'f'
  }

  function HexDigit(d: int): (c: char)
    requires 0 <= d < 16
    ensures IsHexDigit(c)
  {
    if d < 10 then '0' + d as char else 'a' + (d - 10) as char
  }

  function DigitOf(c: char): (d: int)
    requires IsHexDigit(c)
    ensures 0 <= d < 16
  {
    if c <= '9' then (c - '0') as int else (c - 'a') as int + 10
  }

  lemma DigitsAgree()
    ensures forall d | 0 <= d < 16 :: DigitOf(HexDigit(d)) == d
    ensures forall c | IsHexDigit(c) :: HexDigit(DigitOf(c)) == c
  {
  }

  predicate IsHex(s: string) {
    |s| % 2 == 0 && forall i | 0 <= i < |s| :: IsHexDigit(s[i])
  }

  function BytesToHex(b: Bytes): (s: string)
    ensures |s| == 2 * |b| && IsHex(s)
  {
    if b == [] then "" else [HexDigit(b[0] / 16), HexDigit(b[0] % 16)] + BytesToHex(b[1..])
  }

  function HexToBytes(s: string): (b: Bytes)
    requires IsHex(s)
    ensures |s| == 2 * |b|
  {
    if s == "" then [] else [16 * DigitOf(s[0]) + DigitOf(s[1])] + HexToBytes(s[2..])
  }

  lemma PairRoundTrips(c: char, d: char)
    requires IsHexDigit(c) && IsHexDigit(d)
    ensures var b := 16 * DigitOf(c) + DigitOf(d); HexDigit(b / 16) == c && HexDigit(b % 16) == d
  {
    DigitsAgree();
  }

  lemma {:induction false} BytesRoundTrip(s: string)
    requires IsHex(s)
    ensures BytesToHex(HexToBytes(s)) == s
  {
    if s != "" {
      BytesRoundTrip(s[2..]);
      PairRoundTrips(s[0], s[1]);
      hide HexDigit, DigitOf, IsHexDigit;
      assert HexToBytes(s)[1..] == HexToBytes(s[2..]);
      assert s == [s[0], s[1]] + s[2..];
    }
  }
}
