/**
  Sponsorships: with one, a sponsor undertakes to relay one signed input, bound to
  the input's kind, id and digest and to a notional cost. Signatures and digests
  are ideal: a digest is injective, and what verifies was signed.
 */
module Sponsorship {
  import opened Common
  import opened Scale

  const FORMAT_VERSION: Byte := 0
  const BOUND_ID_LENGTH := 16
  const INPUT_DIGEST_LENGTH := 32
  const MAX_NOTIONAL_COST := 0xffff_ffff_ffff_ffff_ffff_ffff_ffff_ffff
  /** The longest byte array the host language has. */
  const MAX_LENGTH := 0x1f_ffff_ffff_ffff

  /** "kippu/v0/sponsorship" */
  const SIGNING_TAG: Bytes := [107, 105, 112, 112, 117, 47, 118, 48, 47, 115, 112, 111, 110, 115, 111, 114, 115, 104, 105, 112]

  datatype Kind = CommandKind | AccessPassKind

  function IndexOf(kind: Kind): Byte {
    if kind.CommandKind? then 0 else 1
  }

  /** What a sponsorship is bound to; the id is in hex. */
  datatype Target = Target(kind: Kind, id: string, digest: Bytes)

  datatype Value = Value(target: Target, cost: int, authorisation: Bytes)

  // ----- Encoding -----

  /** What can be framed; anything else is an error of the caller's. */
  predicate Framable(t: Target, cost: int) {
    && 0 <= cost <= MAX_NOTIONAL_COST
    && IsHex(t.id) && |HexToBytes(t.id)| == BOUND_ID_LENGTH && |t.digest| == INPUT_DIGEST_LENGTH
  }

  lemma SmallIsCompactable(n: nat)
    requires n <= MAX_NOTIONAL_COST
    ensures Compactable(n)
  {
    assert Pow256(16) > MAX_NOTIONAL_COST by {
      assert Pow256(4) == 0x1_0000_0000 by {
        assert Pow256(2) == 0x1_0000;
      }
      assert Pow256(8) == 0x1_0000_0000_0000_0000 by {
        assert Pow256(6) == 0x1_0000_0000_0000;
      }
      assert Pow256(10) == 0x1_0000_0000_0000_0000_0000;
      assert Pow256(12) == 0x1_0000_0000_0000_0000_0000_0000;
      assert Pow256(14) == 0x1_0000_0000_0000_0000_0000_0000_0000;
    }
    ByteLengthAtMost(n, 16);
  }

  function Unsigned(t: Target, cost: int): Bytes
    requires Framable(t, cost)
  {
    SmallIsCompactable(cost);
    [FORMAT_VERSION, IndexOf(t.kind)] + HexToBytes(t.id) + t.digest + Compact(cost)
  }

  function Encode(v: Value): Option<Bytes> {
    if !Framable(v.target, v.cost) || |v.authorisation| > MAX_LENGTH then None
    else
      SmallIsCompactable(|v.authorisation|);
      Some(Unsigned(v.target, v.cost) + (Compact(|v.authorisation|) + v.authorisation))
  }

  // ----- Decoding -----

  datatype Frame = Frame(version: Byte, kind: Byte, id: Bytes, digest: Bytes, cost: nat, authorisation: Bytes)

  /** Reads the fields one after another; what follows them, and longer forms of integers, go unnoticed here. */
  function ReadFrame(b: Bytes): Option<Frame> {
    if |b| < 50 then None
    else
      match ReadCompact(b[50..])
      case None => None
      case Some(Read(cost, rest)) =>
        match ReadCompact(rest)
        case None => None
        case Some(Read(length, last)) =>
          if |last| < length then None
          else Some(Frame(b[0], b[1], b[2..18], b[18..50], cost, last[..length]))
  }

  /** Decodes, and accepts only what encodes back to the same bytes. */
  function Decode(b: Bytes): Option<Value> {
    match ReadFrame(b)
    case None => None
    case Some(frame) =>
      if frame.version != FORMAT_VERSION || (frame.kind != 0 && frame.kind != 1) then None
      else
        var kind := if frame.kind == 0 then CommandKind else AccessPassKind;
        var value := Value(Target(kind, BytesToHex(frame.id), frame.digest), frame.cost, frame.authorisation);
        if Encode(value) == Some(b) then Some(value) else None
  }

  lemma FrameReads(v: Value)
    requires Encode(v).Some?
    ensures ReadFrame(Encode(v).value)
            == Some(Frame(FORMAT_VERSION, IndexOf(v.target.kind), HexToBytes(v.target.id), v.target.digest, v.cost, v.authorisation))
  {
    SmallIsCompactable(v.cost);
    SmallIsCompactable(|v.authorisation|);
    var b := Encode(v).value;
    var tail := Compact(|v.authorisation|) + v.authorisation;
    FixedFields(v);
    hide Unsigned, HexToBytes, Compact, ReadCompact;
    CompactReads(v.cost, tail);
    CompactReads(|v.authorisation|, v.authorisation);
    assert v.authorisation[..|v.authorisation|] == v.authorisation;
  }

  lemma FixedFields(v: Value)
    requires Encode(v).Some?
    ensures Compactable(v.cost) && Compactable(|v.authorisation|)
    ensures var b := Encode(v).value;
            && |b| >= 50 && b[0] == FORMAT_VERSION && b[1] == IndexOf(v.target.kind)
            && b[2..18] == HexToBytes(v.target.id) && b[18..50] == v.target.digest
            && b[50..] == Compact(v.cost) + (Compact(|v.authorisation|) + v.authorisation)
  {
    SmallIsCompactable(v.cost);
    SmallIsCompactable(|v.authorisation|);
    hide HexToBytes, Compact, Compactable, IsHex;
    var id, tail := HexToBytes(v.target.id), Compact(|v.authorisation|) + v.authorisation;
    var b := Encode(v).value;
    assert b == ([FORMAT_VERSION, IndexOf(v.target.kind)] + id + v.target.digest + Compact(v.cost)) + tail;
    assert b[50..] == Compact(v.cost) + tail;
  }

  /** Decoding gives back exactly what was encoded: every target, every cost, every authorisation. */
  lemma DecodeInvertsEncode(v: Value)
    requires Encode(v).Some?
    ensures Decode(Encode(v).value) == Some(v)
  {
    FrameReads(v);
    BytesRoundTrip(v.target.id);
    hide Encode, ReadFrame, HexToBytes, BytesToHex;
  }

  /** Exactly the canonical encodings decode. */
  lemma OnlyCanonicalDecodes(b: Bytes)
    ensures Decode(b).Some? <==> exists v :: Encode(v) == Some(b)
    ensures forall v :: Decode(b) == Some(v) <==> Encode(v) == Some(b)
  {
    hide Encode, ReadFrame;
    forall v | Encode(v) == Some(b) ensures Decode(b) == Some(v) {
      DecodeInvertsEncode(v);
    }
  }

  // ----- What a sponsor signs -----

  function SigningPayload(t: Target, cost: int): Bytes
    requires Framable(t, cost)
  {
    SIGNING_TAG + Unsigned(t, cost)
  }

  /** The signing payload says its kind, id, digest and cost: no two differ in any of them and agree. */
  lemma PayloadIsInjective(t: Target, cost: int, t': Target, cost': int)
    requires Framable(t, cost) && Framable(t', cost') && SigningPayload(t, cost) == SigningPayload(t', cost')
    ensures t == t' && cost == cost'
  {
    var v, v' := Value(t, cost, []), Value(t', cost', []);
    assert Unsigned(t, cost) == SigningPayload(t, cost)[|SIGNING_TAG|..];
    assert Unsigned(t', cost') == SigningPayload(t', cost')[|SIGNING_TAG|..];
    assert Encode(v) == Encode(v');
    DecodeInvertsEncode(v);
    DecodeInvertsEncode(v');
  }

  function Flatten(parts: seq<Bytes>): Bytes {
    if parts == [] then [] else parts[0] + Flatten(parts[1..])
  }

  function TotalLength(parts: seq<Bytes>): nat {
    if parts == [] then 0 else |parts[0]| + TotalLength(parts[1..])
  }

  lemma {:induction false} FlattenLength(parts: seq<Bytes>)
    ensures |Flatten(parts)| == TotalLength(parts)
  {
    if parts != [] {
      FlattenLength(parts[1..]);
    }
  }

  lemma {:induction false} FlattenSplits(parts: seq<Bytes>, i: nat)
    requires i < |parts|
    ensures Flatten(parts[..i + 1]) == Flatten(parts[..i]) + parts[i]
    ensures |Flatten(parts[..i + 1])| <= |Flatten(parts)|
  {
    if i == 0 {
      assert parts[..1] == [parts[0]] && parts[..0] == [];
      assert |parts[..1][1..]| == 0;
    } else {
      assert parts[..i + 1][1..] == parts[1..][..i] && parts[..i][1..] == parts[1..][..i - 1];
      FlattenSplits(parts[1..], i - 1);
    }
  }

  /** Concatenates byte arrays into one, each at its running offset. */
  method Concat(parts: seq<Bytes>) returns (out: array<Byte>)
    ensures fresh(out) && out[..] == Flatten(parts)
  {
    FlattenLength(parts);
    var length, i := 0, |parts|;
    while i > 0
      invariant 0 <= i <= |parts| && length == TotalLength(parts[i..])
    {
      i := i - 1;
      assert parts[i..][1..] == parts[i + 1..];
      length := length + |parts[i]|;
    }
    assert parts[0..] == parts;
    out := new Byte[length];
    var offset := 0;
    while i < |parts|
      invariant 0 <= i <= |parts| && offset == |Flatten(parts[..i])| <= out.Length == |Flatten(parts)|
      invariant out[..offset] == Flatten(parts[..i])
    {
      FlattenSplits(parts, i);
      var part := parts[i];
      forall j | 0 <= j < |part| {
        out[offset + j] := part[j];
      }
      assert out[..offset + |part|] == Flatten(parts[..i]) + part;
      offset := offset + |part|;
      i := i + 1;
    }
    assert parts[..i] == parts;
  }

  /** The bytes a sponsor signs, as they are put together. */
  method PayloadBytes(t: Target, cost: int) returns (out: array<Byte>)
    requires Framable(t, cost)
    ensures out[..] == SigningPayload(t, cost)
  {
    var unsigned := Unsigned(t, cost);
    out := Concat([SIGNING_TAG, unsigned]);
    assert Flatten([SIGNING_TAG, unsigned][1..]) == unsigned + Flatten([SIGNING_TAG, unsigned][1..][1..]);
  }

  method EqualBytes(a: Bytes, b: Bytes) returns (equal: bool)
    ensures equal <==> a == b
  {
    if |a| != |b| {
      return false;
    }
    var i := 0;
    while i < |a|
      invariant 0 <= i <= |a| && a[..i] == b[..i]
    {
      if a[i] != b[i] {
        return false;
      }
      i := i + 1;
    }
    assert a == a[..i] && b == b[..i];
    equal := true;
  }

  // ----- Verifying -----

  type AccountId = nat
  type PublicKey = nat
  type Signature = nat

  /** A signed input of either kind: its id, and everything else about it. */
  datatype Input = Input(kind: Kind, id: string, content: nat)

  datatype Authorisation = Authorisation(p256: bool, key: PublicKey, signature: Signature)

  /** The primitives: digests, authorisations' encoding, keys' accounts, and signatures. */
  datatype Crypto = Crypto(
    digest: Input -> Bytes,
    authorisation: Bytes -> Option<Authorisation>,
    account: PublicKey -> Option<AccountId>,
    valid: (PublicKey, Bytes, Signature) -> bool)

  datatype Refusal = Malformed | OtherId | OtherInput | BadAuthorisation | NotP256 | NoKey | NotASponsor | BadSignature

  datatype Result = Verified(sponsor: AccountId, cost: int) | RefusedSponsorship(why: Refusal)

  function TargetOf(c: Crypto, input: Input): Target {
    Target(input.kind, input.id, c.digest(input))
  }

  function Verify(c: Crypto, bytes: Bytes, input: Input, sponsors: set<AccountId>): Result {
    match Decode(bytes)
    case None => RefusedSponsorship(Malformed)
    case Some(value) =>
      var target := TargetOf(c, input);
      if value.target.kind != target.kind || value.target.id != target.id then RefusedSponsorship(OtherId)
      else if value.target.digest != target.digest then RefusedSponsorship(OtherInput)
      else
        match c.authorisation(value.authorisation)
        case None => RefusedSponsorship(BadAuthorisation)
        case Some(signed) =>
          if !signed.p256 then RefusedSponsorship(NotP256)
          else
            match c.account(signed.key)
            case None => RefusedSponsorship(NoKey)
            case Some(sponsor) =>
              if sponsor !in sponsors then RefusedSponsorship(NotASponsor)
              else if !c.valid(signed.key, SigningPayload(value.target, value.cost), signed.signature) then RefusedSponsorship(BadSignature)
              else Verified(sponsor, value.cost)
  }

  /** What a sponsor account undertook: an input, and at what cost. */
  datatype Undertaking = Undertaking(sponsor: AccountId, input: Input, cost: int)

  /** Digests tell inputs apart, and a signature verifies only for a payload its account signed for an undertaking. */
  ghost predicate Ideal(c: Crypto, undertaken: set<Undertaking>) {
    && (forall a, b | c.digest(a) == c.digest(b) :: a == b)
    && (forall key, payload, signature | c.valid(key, payload, signature) && c.account(key).Some? ::
          exists u | u in undertaken ::
            u.sponsor == c.account(key).value && Framable(TargetOf(c, u.input), u.cost)
            && payload == SigningPayload(TargetOf(c, u.input), u.cost))
  }

  /** The authorisation is a P-256 one of a configured sponsor, whose signature of the target and cost verifies. */
  predicate SignedBySponsor(c: Crypto, target: Target, cost: int, signed: Authorisation, sponsors: set<AccountId>)
    requires Framable(target, cost)
  {
    && signed.p256 && c.account(signed.key).Some? && c.account(signed.key).value in sponsors
    && c.valid(signed.key, SigningPayload(target, cost), signed.signature)
  }

  /**
    Bytes verify for an input exactly if they encode a sponsorship of it at the cost
    given, authorised by that sponsor; another input's is told apart by its id or, with
    the same id, by its digest.
   */
  lemma VerifiesExactlyWhen(c: Crypto, bytes: Bytes, input: Input, sponsors: set<AccountId>)
    ensures forall sponsor: AccountId, cost: int ::
              Verify(c, bytes, input, sponsors) == Verified(sponsor, cost)
              <==> exists authorisation ::
                     && Encode(Value(TargetOf(c, input), cost, authorisation)) == Some(bytes)
                     && c.authorisation(authorisation).Some?
                     && SignedBySponsor(c, TargetOf(c, input), cost, c.authorisation(authorisation).value, sponsors)
                     && c.account(c.authorisation(authorisation).value.key) == Some(sponsor)
    ensures Verify(c, bytes, input, sponsors) == RefusedSponsorship(Malformed) <==> forall v :: Encode(v) != Some(bytes)
    ensures Verify(c, bytes, input, sponsors) == RefusedSponsorship(OtherId)
            <==> exists v :: Encode(v) == Some(bytes) && (v.target.kind != input.kind || v.target.id != input.id)
    ensures Verify(c, bytes, input, sponsors) == RefusedSponsorship(OtherInput)
            <==> exists v :: Encode(v) == Some(bytes) && v.target.kind == input.kind && v.target.id == input.id
                             && v.target.digest != c.digest(input)
  {
    OnlyCanonicalDecodes(bytes);
    hide Decode, Encode, SigningPayload;
    if Decode(bytes).Some? {
      assert Encode(Decode(bytes).value) == Some(bytes);
    }
  }

  /** With ideal signatures and digests, a sponsorship verifies only for the input, and the cost, it was issued for. */
  lemma VerifiesOnlyWhatWasUndertaken(c: Crypto, undertaken: set<Undertaking>, bytes: Bytes, input: Input, sponsors: set<AccountId>)
    requires Ideal(c, undertaken) && Verify(c, bytes, input, sponsors).Verified?
    ensures var r := Verify(c, bytes, input, sponsors);
            r.sponsor in sponsors && Undertaking(r.sponsor, input, r.cost) in undertaken
  {
    var value := Decode(bytes).value;
    var signed := c.authorisation(value.authorisation).value;
    var u :| u in undertaken && u.sponsor == c.account(signed.key).value && Framable(TargetOf(c, u.input), u.cost)
             && SigningPayload(value.target, value.cost) == SigningPayload(TargetOf(c, u.input), u.cost);
    PayloadIsInjective(value.target, value.cost, TargetOf(c, u.input), u.cost);
    assert c.digest(u.input) == c.digest(input);
  }

  /** What a sponsor issues for an input verifies for it. */
  lemma WhatIsIssuedVerifies(c: Crypto, input: Input, cost: int, authorisation: Bytes, sponsors: set<AccountId>)
    requires Framable(TargetOf(c, input), cost) && |authorisation| <= MAX_LENGTH
    requires var a := c.authorisation(authorisation);
             a.Some? && a.value.p256 && c.account(a.value.key).Some? && c.account(a.value.key).value in sponsors
             && c.valid(a.value.key, SigningPayload(TargetOf(c, input), cost), a.value.signature)
    ensures var bytes := Encode(Value(TargetOf(c, input), cost, authorisation));
            bytes.Some? && Verify(c, bytes.value, input, sponsors)
                           == Verified(c.account(c.authorisation(authorisation).value.key).value, cost)
  {
    DecodeInvertsEncode(Value(TargetOf(c, input), cost, authorisation));
  }
}
