/** Ed25519VerificationKey2020 key material: a multibase string whose decoded
    bytes carry the ed25519-pub multicodec tag 0xed 0x01 in front of the
    32-byte public key (W3C CCG "Ed25519Signature2020", section
    "Ed25519VerificationKey2020"). The multibase alphabet itself is not
    modelled: decoding is a collaborator passed in as `MultibaseDecoder`. */
module Multikey {
  import opened Wrappers

  type byte = b: int | 0 <= b < 256

  /** `Multibase.decode`: the bytes, or the message of the exception it raises. */
  type MultibaseDecoder = string -> Result<seq<byte>, string>

  const Ed25519PubTag: seq<byte> := [0xED, 0x01]
  const Ed25519KeyLength: nat := 32

  predicate HasEd25519Tag(b: seq<byte>) {
    |b| >= 2 && b[0] == 0xED && b[1] == 0x01
  }

  /** The multicodec encoding of an Ed25519 public key: tag, then key bytes. */
  function MulticodecEncode(key: seq<byte>): (r: seq<byte>)
    ensures HasEd25519Tag(r) && |r| == |key| + 2
  {
    Ed25519PubTag + key
  }

  /** `Multicodec.decode(Codec.Ed25519PublicKey, bytes)`: strips the tag, and
      raises (`None`) when the bytes do not start with it. */
  function MulticodecDecode(b: seq<byte>): (r: Option<seq<byte>>)
    ensures r.Some? <==> HasEd25519Tag(b)
    ensures r.Some? ==> MulticodecEncode(r.value) == b
  {
    if HasEd25519Tag(b) then
      assert Ed25519PubTag + b[2..] == b;
      Some(b[2..])
    else None
  }

  /** Decoding inverts encoding: every key survives the tag round trip. */
  lemma MulticodecRoundTrip(key: seq<byte>)
    ensures MulticodecDecode(MulticodecEncode(key)) == Some(key)
  {

  }

  /** `IsValidPublicKeyMultibase`: the string is a multibase-encoded Ed25519
      public key of exactly 32 bytes. Every decoder failure reads as `false`. */
  predicate IsValidPublicKeyMultibase(decode: MultibaseDecoder, s: string): (r: bool)
    ensures r <==> decode(s).Ok? && HasEd25519Tag(decode(s).value)
                   && |decode(s).value| == Ed25519KeyLength + 2
  {
    match decode(s)
    case Err(_) => false
    case Ok(multicodec) =>
      match MulticodecDecode(multicodec)
      case None => false
      case Some(publicKey) => |publicKey| == Ed25519KeyLength
  }

  /** A string is a valid key exactly when it decodes to the multicodec
      encoding of some 32-byte key. */
  lemma ValidMeansEncodedKey(decode: MultibaseDecoder, s: string)
    ensures IsValidPublicKeyMultibase(decode, s)
        <==> exists key: seq<byte> :: |key| == Ed25519KeyLength && decode(s) == Ok(MulticodecEncode(key))
  {

  }

  /** Round trip through a decoder that inverts some encoder: every 32-byte key
      encoded that way is accepted, and decodes back to itself. */
  lemma EncodedKeyIsValid(decode: MultibaseDecoder, s: string, key: seq<byte>)
    requires |key| == Ed25519KeyLength
    requires decode(s) == Ok(MulticodecEncode(key))
    ensures IsValidPublicKeyMultibase(decode, s)
    ensures MulticodecDecode(decode(s).value) == Some(key)
  {

  }
}
