/**
 * The collaborators the core consumes but does not implement: the
 * signature scheme, the binary record encoding and the text codecs. They
 * are fields of `Env`; `Sound` states the only facts the model relies on.
 */
module Environment {
  import opened Wrappers
  import opened Primitives
  import opened Manifest

  datatype Env = Env(
    /** `derivePublicKey(type, secret)`. */
    derive: (KeyType, SecretKey) -> PublicKey,
    /** `publicKeyType(pk)`. */
    keyTypeOf: PublicKey -> Option<KeyType>,
    /** `sign(type, secret, message)`. */
    sign: (KeyType, SecretKey, Bytes) -> Bytes,
    /** `verify(pk, message, signature)`. */
    verify: (PublicKey, Bytes, Bytes) -> bool,
    /** `STObject::add` and `STObject::set` (decoding can fail). */
    encode: Record -> Bytes,
    decode: Bytes -> Option<Record>,
    /** `strHex` and `strUnHex`. */
    hex: Bytes -> string,
    unhex: string -> Option<Bytes>,
    /** `base64_encode`. */
    base64: Bytes -> string,
    /** Base58 text of node public and node private keys. */
    publicText: PublicKey -> string,
    parsePublic: string -> Option<PublicKey>,
    secretText: SecretKey -> string,
    parseSecret: string -> Option<SecretKey>)

  /**
   * What the model assumes of the collaborators: a signature by a secret
   * verifies under its derived public key; decoding, hex and base58 invert
   * their encoders; and the literal "external" is not base58 (it contains
   * an 'l', which the base58 alphabet omits).
   */
  ghost predicate Sound(env: Env)
  {
    && (forall kt, sk, m :: env.verify(env.derive(kt, sk), m, env.sign(kt, sk, m)))
    && (forall r :: env.decode(env.encode(r)) == Some(r))
    && (forall b :: env.unhex(env.hex(b)) == Some(b))
    && (forall pk :: env.parsePublic(env.publicText(pk)) == Some(pk))
    && (forall sk :: env.parseSecret(env.secretText(sk)) == Some(sk))
    && env.parseSecret("external") == None
  }

  /** The signed pre-image: the manifest hash prefix, then the record without its signature fields. */
  function SigningData(env: Env, r: Record): Bytes
  {
    ManifestPrefix + env.encode(Unsigned(r))
  }

  /** `ripple::sign(st, HashPrefix::manifest, type, secret)`: fills `sfSignature`. */
  function SignDelegated(env: Env, r: Record, kt: KeyType, sk: SecretKey): (s: Record)
    ensures Unsigned(s) == Unsigned(r) && s.masterSignature == r.masterSignature
    ensures s.signature == Some(env.sign(kt, sk, SigningData(env, r)))
  {
    r.(signature := Some(env.sign(kt, sk, SigningData(env, r))))
  }

  /** The same, filling `sfMasterSignature`. */
  function SignMaster(env: Env, r: Record, kt: KeyType, sk: SecretKey): (s: Record)
    ensures Unsigned(s) == Unsigned(r) && s.signature == r.signature
    ensures s.masterSignature == Some(env.sign(kt, sk, SigningData(env, r)))
  {
    r.(masterSignature := Some(env.sign(kt, sk, SigningData(env, r))))
  }

  /** `verify(st, HashPrefix::manifest, pk, field)`: the field is present and verifies over the pre-image. */
  predicate VerifyField(env: Env, r: Record, pk: PublicKey, sig: Option<Bytes>)
  {
    sig.Some? && env.verify(pk, SigningData(env, r), sig.value)
  }

  /** Signing leaves the pre-image alone, so a signature added later still covers the same bytes. */
  lemma SigningDataIgnoresSignatures(env: Env, r: Record, r': Record)
    requires Unsigned(r) == Unsigned(r')
    ensures SigningData(env, r) == SigningData(env, r')
  {
  }

  /** A field signed by a secret verifies under the key derived from it. */
  lemma SignedFieldVerifies(env: Env, r: Record, kt: KeyType, sk: SecretKey)
    requires Sound(env)
    ensures VerifyField(env, SignDelegated(env, r, kt, sk), env.derive(kt, sk), SignDelegated(env, r, kt, sk).signature)
    ensures VerifyField(env, SignMaster(env, r, kt, sk), env.derive(kt, sk), SignMaster(env, r, kt, sk).masterSignature)
  {
    var m := SigningData(env, r);
    assert env.verify(env.derive(kt, sk), m, env.sign(kt, sk, m));
  }
}
