/**
 * The key-management object `ValidatorKeys`: master key material, the
 * token sequence, the revoked flag, the domain, the last committed
 * manifest and the staged (pending) token key. Every member is a pure
 * transition from a state to a `Step`, whose `post` is the object as it
 * stands after the call even when the call throws, because several
 * members mutate the object before the check that throws.
 */
module ValidatorKeys {
  import opened Wrappers
  import opened Primitives
  import opened Manifest
  import opened Environment
  import opened Json
  import Domain

  datatype State = State(
    keyType: KeyType,
    publicKey: PublicKey,
    /** Absent in external mode: the master secret lives elsewhere. */
    secretKey: Option<SecretKey>,
    tokenSequence: Uint32,
    revoked: bool,
    domain: string,
    /** Encoded bytes of the last committed manifest; empty if none. */
    manifest: Bytes,
    pendingTokenSecret: Option<SecretKey>,
    pendingKeyType: Option<KeyType>)

  /** `ValidatorToken`: the base64 manifest and the delegated secret. */
  datatype Token = Token(manifest: string, secretKey: SecretKey)

  /** Every `std::runtime_error` the core throws, one constructor per message. */
  datatype Error =
    | CannotSignTokens
    | CannotSign
    | NoPendingToken
    | NotProperlySigned
    | MalformedManifest
    | BadHex(data: string)
    | DomainLength
    | DomainFormat
    | OpenFailed
    | ParseFailed
    | MissingField(field: string)
    | InvalidField(field: string, shown: Json)
    | NotConvertible

  /** The text of each error; `path` is the key file and `styled` renders a JSON value. */
  function Message(e: Error, path: string, styled: Json -> string): string
  {
    match e
    case CannotSignTokens => "This key file cannot be used to sign tokens."
    case CannotSign => "This key file cannot be used to sign."
    case NoPendingToken => "No pending token to finish"
    case NotProperlySigned => "Manifest is not properly signed"
    // The deserializer's own exception; its text is not part of this model, so this is a stand-in.
    case MalformedManifest => "Manifest could not be deserialized"
    case BadHex(data) => "Could not decode hex string: " + data
    case DomainLength => "The domain must be between 4 and 128 characters long."
    case DomainFormat => "The domain field must use the '[host.][subdomain.]domain.tld' format"
    case OpenFailed => "Failed to open key file: " + path
    case ParseFailed => "Unable to parse json key file: " + path
    case MissingField(f) => "Key file '" + path + "' is missing \"" + f + "\" field"
    case InvalidField(f, v) => "Key file '" + path + "' contains invalid \"" + f + "\" field: " + styled(v)
    case NotConvertible => "Type is not convertible to string"
  }

  /** The result of a member together with the object after the call. */
  datatype Step<+T> = Step(out: Result<T, Error>, post: State)

  /** The state is consistent with its key material and holds an acceptable domain. */
  predicate WellFormed(env: Env, s: State)
  {
    && (s.secretKey.Some? ==> s.publicKey == env.derive(s.keyType, s.secretKey.value))
    && (s.secretKey.None? ==> env.keyTypeOf(s.publicKey) == Some(s.keyType))
    && Domain.ValidateDomain(s.domain).None?
  }

  /** Nothing has been committed, staged or claimed yet. */
  predicate Blank(s: State)
  {
    s.domain == "" && s.manifest == [] && s.pendingTokenSecret.None? && s.pendingKeyType.None?
  }

  // ---------------------------------------------------------------- constructors

  /** `ValidatorKeys(keyType)`: a fresh master key from the generated secret `seed`. */
  function Generate(env: Env, kt: KeyType, seed: SecretKey): (s: State)
    ensures WellFormed(env, s) && Blank(s)
    ensures s.secretKey == Some(seed) && s.keyType == kt
    ensures s.tokenSequence == 0 && !s.revoked
  {
    FromSecret(env, kt, seed, 0, false)
  }

  /** `ValidatorKeys(keyType, secretKey, sequence, revoked)`. */
  function FromSecret(env: Env, kt: KeyType, sk: SecretKey, sequence: Uint32, revoked: bool): (s: State)
    ensures Blank(s) && s.secretKey == Some(sk) && s.keyType == kt
    ensures Domain.ValidateDomain(s.domain).None?
    ensures s.publicKey == env.derive(kt, sk)
    ensures s.tokenSequence == sequence && s.revoked == revoked
  {
    State(kt, env.derive(kt, sk), Some(sk), sequence, revoked, "", [], None, None)
  }

  /** `ValidatorKeys(keyType, publicKey, sequence, revoked)`: external mode. */
  function FromPublic(kt: KeyType, pk: PublicKey, sequence: Uint32, revoked: bool): (s: State)
    ensures Blank(s) && s.secretKey.None? && s.keyType == kt && s.publicKey == pk
    ensures Domain.ValidateDomain(s.domain).None?
    ensures s.tokenSequence == sequence && s.revoked == revoked
  {
    State(kt, pk, None, sequence, revoked, "", [], None, None)
  }

  // ---------------------------------------------------------------- verification and commit

  /**
   * The rule a committed manifest must satisfy: a master signature valid
   * under the record's master key, and, when not revoked, a delegated key
   * with a valid signature; when revoked, no delegated key at all.
   */
  predicate Acceptable(env: Env, revoked: bool, rec: Record)
  {
    && rec.masterPk.Some?
    && VerifyField(env, rec, rec.masterPk.value, rec.masterSignature)
    && (revoked <==> rec.signingPk.None?)
    && (!revoked ==> VerifyField(env, rec, rec.signingPk.value, rec.signature))
  }

  /** `verifyManifest`: decodes the stored bytes and applies the signature rules. */
  function VerifyManifest(env: Env, s: State): (r: Outcome<Error>)
    ensures r.Pass? <==> env.decode(s.manifest).Some? && Acceptable(env, s.revoked, env.decode(s.manifest).value)
    ensures r.Fail? ==> r.error == (if env.decode(s.manifest).None? then MalformedManifest else NotProperlySigned)
  {
    match env.decode(s.manifest)
    case None => Fail(MalformedManifest)
    case Some(st) =>
      var tpk := st.signingPk;
      if s.revoked && tpk.Some? then Fail(NotProperlySigned)
      else if !s.revoked && (tpk.None? || !VerifyField(env, st, tpk.value, st.signature)) then Fail(NotProperlySigned)
      else
        var pk := st.masterPk;
        if pk.None? || !VerifyField(env, st, pk.value, st.masterSignature) then Fail(NotProperlySigned)
        else Pass
  }

  /**
   * `setManifest`: overwrites the stored bytes, then verifies them, and
   * clears the pending token only if verification passed. A rejected
   * commit keeps the new bytes.
   */
  function SetManifest(env: Env, s: State, rec: Record): (r: Step<()>)
    ensures r.post.manifest == env.encode(rec)
    ensures r.out.Ok? <==> VerifyManifest(env, s.(manifest := env.encode(rec))).Pass?
    ensures r.out.Err? ==> r.out.error == VerifyManifest(env, s.(manifest := env.encode(rec))).error
    ensures r.out.Ok? ==> r.post.pendingTokenSecret.None? && r.post.pendingKeyType.None?
    ensures r.out.Err? ==> r.post.pendingTokenSecret == s.pendingTokenSecret && r.post.pendingKeyType == s.pendingKeyType
    ensures r.post.(manifest := s.manifest, pendingTokenSecret := s.pendingTokenSecret, pendingKeyType := s.pendingKeyType) == s
  {
    var s1 := s.(manifest := env.encode(rec));
    match VerifyManifest(env, s1)
    case Fail(e) => Step(Err(e), s1)
    case Pass => Step(Ok(()), s1.(pendingTokenSecret := None, pendingKeyType := None))
  }

  /** A commit that returns normally leaves a manifest that verifies. */
  lemma CommittedManifestVerifies(env: Env, s: State, rec: Record)
    requires SetManifest(env, s, rec).out.Ok?
    ensures VerifyManifest(env, SetManifest(env, s, rec).post).Pass?
  {
    var s1 := s.(manifest := env.encode(rec));
    assert SetManifest(env, s, rec).post == s1.(pendingTokenSecret := None, pendingKeyType := None);
  }

  // ---------------------------------------------------------------- tokens

  /**
   * The signed delegation record: the partial manifest signed by the
   * delegated secret `ts` of type `kt`, carrying `masterSig` in the master
   * signature slot.
   */
  function TokenRecord(env: Env, sequence: Uint32, s: State, kt: KeyType, ts: SecretKey, masterSig: Bytes): (rec: Record)
    ensures Unsigned(rec) == PartialManifest(sequence, s.publicKey, env.derive(kt, ts), s.domain)
    ensures rec.signature == Some(env.sign(kt, ts, SigningData(env, rec)))
    ensures rec.masterSignature == Some(masterSig)
  {
    var st := PartialManifest(sequence, s.publicKey, env.derive(kt, ts), s.domain);
    SignDelegated(env, st, kt, ts).(masterSignature := Some(masterSig))
  }

  /** The master signature a local secret puts on the delegation at `sequence`. */
  function LocalMasterSignature(env: Env, sequence: Uint32, s: State, kt: KeyType, ts: SecretKey): Bytes
    requires s.secretKey.Some?
  {
    env.sign(s.keyType, s.secretKey.value,
             SigningData(env, PartialManifest(sequence, s.publicKey, env.derive(kt, ts), s.domain)))
  }

  /** No token can be minted: revoked, or the next sequence would reach the reserved top values. */
  predicate TokenGuardFails(s: State)
  {
    s.revoked || UINT32_MAX - 1 <= s.tokenSequence
  }

  /**
   * `createValidatorToken(keyType)`, with `ts` the freshly generated
   * delegated secret. Returns no token when revoked or out of sequence
   * space; throws before mutating when there is no local secret;
   * otherwise advances the sequence by one and commits the delegation at
   * the new sequence, signed by `ts` and by the master secret.
   */
  function CreateValidatorToken(env: Env, s: State, kt: KeyType, ts: SecretKey): (r: Step<Option<Token>>)
    ensures TokenGuardFails(s) ==> r == Step(Ok(None), s)
    ensures !TokenGuardFails(s) && s.secretKey.None? ==> r == Step(Err(CannotSignTokens), s)
    ensures !TokenGuardFails(s) && s.secretKey.Some? ==>
              && r.post.tokenSequence == s.tokenSequence + 1
              && r.post.manifest == env.encode(TokenRecord(env, s.tokenSequence + 1, s, kt, ts,
                                                           LocalMasterSignature(env, s.tokenSequence + 1, s, kt, ts)))
              && r.post.(tokenSequence := s.tokenSequence, manifest := s.manifest,
                         pendingTokenSecret := s.pendingTokenSecret, pendingKeyType := s.pendingKeyType) == s
              && (r.out.Ok? <==> VerifyManifest(env, r.post).Pass?)
              && (r.out.Err? ==> r.out.error == VerifyManifest(env, r.post).error
                                 && r.post.pendingTokenSecret == s.pendingTokenSecret
                                 && r.post.pendingKeyType == s.pendingKeyType)
              && (r.out.Ok? ==> r.out.value == Some(Token(env.base64(r.post.manifest), ts))
                                && r.post.pendingTokenSecret.None? && r.post.pendingKeyType.None?)
  {
    if TokenGuardFails(s) then Step(Ok(None), s)
    else if s.secretKey.None? then Step(Err(CannotSignTokens), s)
    else
      var s1 := s.(tokenSequence := s.tokenSequence + 1);
      var st := PartialManifest(s1.tokenSequence, s.publicKey, env.derive(kt, ts), s.domain);
      var signed := SignMaster(env, SignDelegated(env, st, kt, ts), s.keyType, s.secretKey.value);
      assert signed == TokenRecord(env, s1.tokenSequence, s, kt, ts, LocalMasterSignature(env, s1.tokenSequence, s, kt, ts));
      var c := SetManifest(env, s1, signed);
      if c.out.Err? then Step(Err(c.out.error), c.post)
      else Step(Ok(Some(Token(env.base64(c.post.manifest), ts))), c.post)
  }

  /** The key type a token gets when the caller names none. */
  const DefaultTokenKeyType: KeyType := Secp256k1

  /** `createValidatorToken()` with its default argument. */
  function CreateValidatorTokenDefault(env: Env, s: State, ts: SecretKey): (r: Step<Option<Token>>)
    ensures r == CreateValidatorToken(env, s, Secp256k1, ts)
  {
    CreateValidatorToken(env, s, DefaultTokenKeyType, ts)
  }

  /**
   * `startValidatorToken(keyType)`: stages `ts` and `kt` as the pending
   * token and returns, hex-encoded, the pre-image the master key must sign
   * for the delegation at the next sequence. Sequence, revoked flag and
   * manifest are untouched.
   */
  function StartValidatorToken(env: Env, s: State, kt: KeyType, ts: SecretKey): (r: Step<Option<string>>)
    ensures r.out.Ok?
    ensures TokenGuardFails(s) ==> r == Step(Ok(None), s)
    ensures !TokenGuardFails(s) ==>
              && r.out.value == Some(env.hex(SigningData(env, PartialManifest(s.tokenSequence + 1, s.publicKey, env.derive(kt, ts), s.domain))))
              && r.post == s.(pendingTokenSecret := Some(ts), pendingKeyType := Some(kt))
  {
    if TokenGuardFails(s) then Step(Ok(None), s)
    else
      var st := PartialManifest(s.tokenSequence + 1, s.publicKey, env.derive(kt, ts), s.domain);
      Step(Ok(Some(env.hex(SigningData(env, st)))), s.(pendingTokenSecret := Some(ts), pendingKeyType := Some(kt)))
  }

  /**
   * `finishToken(masterSig)`: returns nothing when revoked; throws when
   * either pending field is absent; otherwise increments the sequence
   * (without re-checking its ceiling, so it wraps at the top), rebuilds the
   * delegation from the staged key, attaches `masterSig` and commits.
   */
  function FinishToken(env: Env, s: State, masterSig: Bytes): (r: Step<Option<Token>>)
    ensures s.revoked ==> r == Step(Ok(None), s)
    ensures !s.revoked && (s.pendingTokenSecret.None? || s.pendingKeyType.None?) ==> r == Step(Err(NoPendingToken), s)
    ensures !s.revoked && s.pendingTokenSecret.Some? && s.pendingKeyType.Some? ==>
              && r.post.tokenSequence == Inc32(s.tokenSequence)
              && r.post.manifest == env.encode(TokenRecord(env, Inc32(s.tokenSequence), s,
                                                           s.pendingKeyType.value, s.pendingTokenSecret.value, masterSig))
              && r.post.(tokenSequence := s.tokenSequence, manifest := s.manifest,
                         pendingTokenSecret := s.pendingTokenSecret, pendingKeyType := s.pendingKeyType) == s
              && (r.out.Ok? <==> VerifyManifest(env, r.post).Pass?)
              && (r.out.Err? ==> r.out.error == VerifyManifest(env, r.post).error)
              && (r.out.Ok? ==> r.out.value == Some(Token(env.base64(r.post.manifest), s.pendingTokenSecret.value))
                                && r.post.pendingTokenSecret.None? && r.post.pendingKeyType.None?)
              && (r.out.Err? ==> r.post.pendingTokenSecret == s.pendingTokenSecret && r.post.pendingKeyType == s.pendingKeyType)
  {
    if s.revoked then Step(Ok(None), s)
    else if s.pendingTokenSecret.None? || s.pendingKeyType.None? then Step(Err(NoPendingToken), s)
    else
      var s1 := s.(tokenSequence := Inc32(s.tokenSequence));
      var ts := s.pendingTokenSecret.value;
      var kt := s.pendingKeyType.value;
      var st := PartialManifest(s1.tokenSequence, s.publicKey, env.derive(kt, ts), s.domain);
      var signed := SignDelegated(env, st, kt, ts).(masterSignature := Some(masterSig));
      var c := SetManifest(env, s1, signed);
      if c.out.Err? then Step(Err(c.out.error), c.post)
      else Step(Ok(Some(Token(env.base64(c.post.manifest), ts))), c.post)
  }

  // ---------------------------------------------------------------- revocation

  /** The revocation record with `masterSig` in the master signature slot. */
  function RevocationRecord(s: State, masterSig: Bytes): (rec: Record)
    ensures Unsigned(rec) == PartialRevocation(s.publicKey)
    ensures rec.signature.None? && rec.masterSignature == Some(masterSig)
  {
    PartialRevocation(s.publicKey).(masterSignature := Some(masterSig))
  }

  /**
   * `revoke()`: throws before mutating without a local secret; otherwise
   * sets the revoked flag unconditionally and commits the revocation
   * signed by the master secret. The sequence is not touched.
   */
  function Revoke(env: Env, s: State): (r: Step<string>)
    ensures s.secretKey.None? ==> r == Step(Err(CannotSignTokens), s)
    ensures s.secretKey.Some? ==>
              && r.post.revoked
              && r.post.manifest == env.encode(RevocationRecord(s, env.sign(s.keyType, s.secretKey.value,
                                                                          SigningData(env, PartialRevocation(s.publicKey)))))
              && r.post.(revoked := s.revoked, manifest := s.manifest,
                         pendingTokenSecret := s.pendingTokenSecret, pendingKeyType := s.pendingKeyType) == s
              && (r.out.Ok? <==> VerifyManifest(env, r.post).Pass?)
              && (r.out.Err? ==> r.out.error == VerifyManifest(env, r.post).error
                                 && r.post.pendingTokenSecret == s.pendingTokenSecret
                                 && r.post.pendingKeyType == s.pendingKeyType)
              && (r.out.Ok? ==> r.out.value == env.base64(r.post.manifest)
                                && r.post.pendingTokenSecret.None? && r.post.pendingKeyType.None?)
  {
    if s.secretKey.None? then Step(Err(CannotSignTokens), s)
    else
      var s1 := s.(revoked := true);
      var signed := SignMaster(env, PartialRevocation(s.publicKey), s.keyType, s.secretKey.value);
      var c := SetManifest(env, s1, signed);
      if c.out.Err? then Step(Err(c.out.error), c.post)
      else Step(Ok(env.base64(c.post.manifest)), c.post)
  }

  /**
   * `startRevoke()`: returns, hex-encoded, the pre-image of the revocation
   * and discards any pending token; nothing else changes.
   */
  function StartRevoke(env: Env, s: State): (r: Step<string>)
    ensures r.out == Ok(env.hex(SigningData(env, PartialRevocation(s.publicKey))))
    ensures r.post == s.(pendingTokenSecret := None, pendingKeyType := None)
  {
    var st := PartialRevocation(s.publicKey);
    Step(Ok(env.hex(SigningData(env, st))), s.(pendingTokenSecret := None, pendingKeyType := None))
  }

  /**
   * `finishRevoke(masterSig)`: sets the revoked flag unconditionally and
   * commits the revocation carrying `masterSig`.
   */
  function FinishRevoke(env: Env, s: State, masterSig: Bytes): (r: Step<string>)
    ensures r.post.revoked
    ensures r.post.manifest == env.encode(RevocationRecord(s, masterSig))
    ensures r.post.(revoked := s.revoked, manifest := s.manifest,
                    pendingTokenSecret := s.pendingTokenSecret, pendingKeyType := s.pendingKeyType) == s
    ensures r.out.Ok? <==> VerifyManifest(env, r.post).Pass?
    ensures r.out.Err? ==> r.out.error == VerifyManifest(env, r.post).error
    ensures r.out.Ok? ==> r.out.value == env.base64(r.post.manifest)
                          && r.post.pendingTokenSecret.None? && r.post.pendingKeyType.None?
    ensures r.out.Err? ==> r.post.pendingTokenSecret == s.pendingTokenSecret && r.post.pendingKeyType == s.pendingKeyType
  {
    var s1 := s.(revoked := true);
    var c := SetManifest(env, s1, PartialRevocation(s.publicKey).(masterSignature := Some(masterSig)));
    if c.out.Err? then Step(Err(c.out.error), c.post)
    else Step(Ok(env.base64(c.post.manifest)), c.post)
  }

  // ---------------------------------------------------------------- ad-hoc signing and the domain

  /** `sign(data)`: a hex signature of the text by the master secret; never mutates. */
  function Sign(env: Env, s: State, data: string): (r: Result<string, Error>)
    ensures s.secretKey.None? <==> r == Err(CannotSign)
    ensures s.secretKey.Some? ==> r.Ok?
    ensures r.Ok? ==> r.value == env.hex(env.sign(s.keyType, s.secretKey.value, Raw(data)))
  {
    if s.secretKey.None? then Err(CannotSign)
    else Ok(env.hex(env.sign(s.keyType, s.secretKey.value, Raw(data))))
  }

  /** The characters `std::isspace` accepts in the "C" locale. */
  predicate IsSpace(c: char)
  {
    c == ' ' || c == '\t' || c == '\n' || c == '\r' || c == '\U{000B}' || c == '\U{000C}'
  }

  /** Drops leading white space. */
  function TrimLeft(s: string): (t: string)
    ensures |t| <= |s| && t == s[|s| - |t|..]
    ensures forall k :: 0 <= k < |s| - |t| ==> IsSpace(s[k])
    ensures |t| > 0 ==> !IsSpace(t[0])
  {
    if |s| > 0 && IsSpace(s[0]) then TrimLeft(s[1..]) else s
  }

  /** Drops trailing white space. */
  function TrimRight(s: string): (t: string)
    ensures |t| <= |s| && t == s[..|t|]
    ensures forall k :: |t| <= k < |s| ==> IsSpace(s[k])
    ensures |t| > 0 ==> !IsSpace(t[|t| - 1])
  {
    if |s| > 0 && IsSpace(s[|s| - 1]) then TrimRight(s[..|s| - 1]) else s
  }

  /** Number of leading white-space characters of `s`. */
  function LeadingSpace(s: string): nat
  {
    |s| - |TrimLeft(s)|
  }

  /** `boost::algorithm::trim`: the longest infix with no white space at either end. */
  function Trim(s: string): (t: string)
    ensures |t| > 0 ==> !IsSpace(t[0]) && !IsSpace(t[|t| - 1])
    ensures LeadingSpace(s) + |t| <= |s| && t == s[LeadingSpace(s)..LeadingSpace(s) + |t|]
    ensures forall k :: 0 <= k < LeadingSpace(s) ==> IsSpace(s[k])
    ensures forall k :: LeadingSpace(s) + |t| <= k < |s| ==> IsSpace(s[k])
  {
    var l := TrimLeft(s);
    TrimmedSuffix(s[|s| - |l|..], |s| - |l|, s);
    TrimRight(l)
  }

  /** Trimming the right end of a suffix of `s` leaves an infix of `s` with white space after it. */
  lemma TrimmedSuffix(l: string, lo: nat, s: string)
    requires lo <= |s| && l == s[lo..]
    ensures lo + |TrimRight(l)| <= |s| && TrimRight(l) == s[lo..lo + |TrimRight(l)|]
    ensures forall k :: lo + |TrimRight(l)| <= k < |s| ==> IsSpace(s[k])
  {
    var t := TrimRight(l);
    assert t == l[..|t|];
    forall k | lo + |t| <= k < |s|
      ensures IsSpace(s[k])
    {
      assert s[k] == l[k - lo];
    }
  }

  /**
   * `signHex(data)`: needs a local secret (checked first); trims the
   * input, decodes it as hex, and signs the decoded bytes.
   */
  function SignHex(env: Env, s: State, data: string): (r: Result<string, Error>)
    ensures s.secretKey.None? ==> r == Err(CannotSign)
    ensures s.secretKey.Some? && env.unhex(Trim(data)).None? ==> r == Err(BadHex(Trim(data)))
    ensures s.secretKey.Some? && env.unhex(Trim(data)).Some? ==>
              r == Ok(env.hex(env.sign(s.keyType, s.secretKey.value, env.unhex(Trim(data)).value)))
  {
    if s.secretKey.None? then Err(CannotSign)
    else
      var trimmed := Trim(data);
      match env.unhex(trimmed)
      case None => Err(BadHex(trimmed))
      case Some(blob) => Ok(env.hex(env.sign(s.keyType, s.secretKey.value, blob)))
  }

  /**
   * `domain(d)`: assigns `d` when it validates; otherwise throws the
   * length or the format message and leaves the state as it was.
   */
  function SetDomain(s: State, d: string): (r: Step<()>)
    ensures d == "" ==> r == Step(Ok(()), s.(domain := ""))
    ensures d != "" && (|d| < Domain.MinDomainLength || |d| > Domain.MaxDomainLength) ==> r == Step(Err(DomainLength), s)
    ensures d != "" && Domain.MinDomainLength <= |d| <= Domain.MaxDomainLength && Domain.MatchesPattern(d) ==>
              r == Step(Ok(()), s.(domain := d))
    ensures d != "" && Domain.MinDomainLength <= |d| <= Domain.MaxDomainLength && !Domain.MatchesPattern(d) ==>
              r == Step(Err(DomainFormat), s)
    ensures r.out.Ok? ==> r.post == s.(domain := d)
    ensures r.out.Err? ==> r.post == s && r.out.error in {DomainLength, DomainFormat}
  {
    var v := Domain.ValidateDomain(d);
    if v == Some(Domain.BadLength) then Step(Err(DomainLength), s)
    else if v == Some(Domain.BadFormat) then Step(Err(DomainFormat), s)
    else Step(Ok(()), s.(domain := d))
  }

  // ---------------------------------------------------------------- observers

  /** `operator==`: revoked flag, key type, sequence and both keys; nothing else. */
  predicate Equal(a: State, b: State)
  {
    && a.revoked == b.revoked && a.keyType == b.keyType
    && a.tokenSequence == b.tokenSequence
    && a.publicKey == b.publicKey && a.secretKey == b.secretKey
  }

  /** `sequence()`: the sequence of the last manifest generated. */
  function Sequence(s: State): Uint32
  {
    s.tokenSequence
  }
}
