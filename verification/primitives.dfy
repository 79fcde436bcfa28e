/** Bytes, the 32-bit counter and the key vocabulary of the protocol. */
module Primitives {
  import opened Wrappers

  newtype byte = x: int | 0 <= x < 256

  type Bytes = seq<byte>

  /** Largest value of a `std::uint32_t`; the sequence reserved for revocations. */
  const UINT32_MAX: int := 0xFFFF_FFFF

  type Uint32 = x: int | 0 <= x <= UINT32_MAX

  /** `++x` on a `std::uint32_t`: wraps from the maximum back to zero. */
  function Inc32(x: Uint32): (r: Uint32)
    ensures x < UINT32_MAX ==> r == x + 1
    ensures x == UINT32_MAX ==> r == 0
  {
    (x + 1) % (UINT32_MAX + 1)
  }

  /** The two signature algorithms the key file may name. */
  datatype KeyType = Secp256k1 | Ed25519

  /** Opaque key material; the bytes are never inspected by the model. */
  datatype PublicKey = PublicKey(bytes: Bytes)
  datatype SecretKey = SecretKey(bytes: Bytes)

  /** `to_string(KeyType)`. */
  function KeyTypeName(kt: KeyType): string
  {
    match kt
    case Secp256k1 => "secp256k1"
    case Ed25519 => "ed25519"
  }

  /** `keyTypeFromString`: the inverse of `KeyTypeName`, failing on any other text. */
  function KeyTypeFromString(s: string): (r: Option<KeyType>)
    ensures r.Some? ==> KeyTypeName(r.value) == s
  {
    if s == "secp256k1" then Some(Secp256k1)
    else if s == "ed25519" then Some(Ed25519)
    else None
  }

  lemma KeyTypeNameRoundTrip(kt: KeyType)
    ensures KeyTypeFromString(KeyTypeName(kt)) == Some(kt)
  {
    match kt
    case Secp256k1 =>
    case Ed25519 =>
      assert KeyTypeName(kt) != "secp256k1" by { assert KeyTypeName(kt)[0] == 'e'; }
  }

  /** The bytes of a `std::string` as handed to `makeSlice`; each char stands for one byte. */
  function Raw(s: string): (b: Bytes)
    ensures |b| == |s|
    ensures forall i :: 0 <= i < |s| ==> b[i] as int == s[i] as int % 256
  {
    seq(|s|, i requires 0 <= i < |s| => (s[i] as int % 256) as byte)
  }
}
