/**
 * Properties that relate several members of `ValidatorKeys`: local and
 * external minting agree, a master signature over the staged bytes is
 * accepted when the token is finished, revocation is idempotent and its
 * signature can be replayed.
 */
module Protocol {
  import opened Wrappers
  import opened Primitives
  import opened Manifest
  import opened Environment
  import opened ValidatorKeys
  import Domain

  /** A delegation at `sequence` carrying both signatures passes verification while not revoked. */
  lemma TokenRecordVerifies(env: Env, sequence: Uint32, s: State, kt: KeyType, ts: SecretKey, mkt: KeyType, msk: SecretKey)
    requires Sound(env)
    requires s.publicKey == env.derive(mkt, msk)
    ensures var rec := TokenRecord(env, sequence, s, kt, ts,
                                   env.sign(mkt, msk, SigningData(env, PartialManifest(sequence, s.publicKey, env.derive(kt, ts), s.domain))));
            Acceptable(env, false, rec)
  {
    var st := PartialManifest(sequence, s.publicKey, env.derive(kt, ts), s.domain);
    var rec := TokenRecord(env, sequence, s, kt, ts, env.sign(mkt, msk, SigningData(env, st)));
    SigningDataIgnoresSignatures(env, rec, st);
    assert env.verify(env.derive(kt, ts), SigningData(env, rec), env.sign(kt, ts, SigningData(env, rec)));
    assert env.verify(env.derive(mkt, msk), SigningData(env, st), env.sign(mkt, msk, SigningData(env, st)));
  }

  /**
   * Minting with a local secret succeeds whenever the guard lets it run:
   * the sequence rises by exactly one and the committed record decodes to
   * a delegation at the new sequence, naming the master key, the fresh
   * token key, and the domain exactly when one is set.
   */
  lemma CreateValidatorTokenCommits(env: Env, s: State, kt: KeyType, ts: SecretKey)
    requires Sound(env) && WellFormed(env, s)
    requires !TokenGuardFails(s) && s.secretKey.Some?
    ensures var r := CreateValidatorToken(env, s, kt, ts);
            && r.out == Ok(Some(Token(env.base64(r.post.manifest), ts)))
            && Sequence(r.post) == Sequence(s) + 1
            && VerifyManifest(env, r.post).Pass?
            && var rec := env.decode(r.post.manifest).value;
               && rec.sequence == Some(Sequence(r.post))
               && rec.masterPk == Some(s.publicKey)
               && rec.signingPk == Some(env.derive(kt, ts))
               && (rec.domain.Some? <==> s.domain != "")
  {
    var n := s.tokenSequence + 1;
    TokenRecordVerifies(env, n, s, kt, ts, s.keyType, s.secretKey.value);
    var rec := TokenRecord(env, n, s, kt, ts, LocalMasterSignature(env, n, s, kt, ts));
    assert env.decode(env.encode(rec)) == Some(rec);
    var s1 := s.(tokenSequence := n);
    assert VerifyManifest(env, s1.(manifest := env.encode(rec))).Pass?;
  }

  /** At the boundary: one below the reserved values still mints, and reaches the last token sequence. */
  lemma CreateValidatorTokenBoundary(env: Env, s: State, kt: KeyType, ts: SecretKey)
    requires Sound(env) && WellFormed(env, s) && s.secretKey.Some? && !s.revoked
    ensures s.tokenSequence == UINT32_MAX - 2 ==>
              CreateValidatorToken(env, s, kt, ts).out.value.Some?
              && CreateValidatorToken(env, s, kt, ts).post.tokenSequence == UINT32_MAX - 1
    ensures s.tokenSequence == UINT32_MAX - 1 ==> CreateValidatorToken(env, s, kt, ts) == Step(Ok(None), s)
  {
    if s.tokenSequence == UINT32_MAX - 2 {
      CreateValidatorTokenCommits(env, s, kt, ts);
    }
  }

  /**
   * Staging and finishing with the master secret's signature over the
   * staged bytes yields exactly what minting locally yields: the same
   * manifest bytes and the same object afterwards.
   */
  lemma StartFinishMatchesCreate(env: Env, s: State, kt: KeyType, ts: SecretKey)
    requires Sound(env) && WellFormed(env, s)
    requires !TokenGuardFails(s) && s.secretKey.Some?
    ensures var staged := StartValidatorToken(env, s, kt, ts).post;
            var n := s.tokenSequence + 1;
            FinishToken(env, staged, LocalMasterSignature(env, n, s, kt, ts)) == CreateValidatorToken(env, s, kt, ts)
  {
    var n := s.tokenSequence + 1;
    var staged := StartValidatorToken(env, s, kt, ts).post;
    var sig := LocalMasterSignature(env, n, s, kt, ts);
    CreateValidatorTokenCommits(env, s, kt, ts);
    ExternalSignatureFinishes(env, s, kt, ts, s.keyType, s.secretKey.value, staged);
    var st := PartialManifest(n, s.publicKey, env.derive(kt, ts), s.domain);
    assert env.unhex(env.hex(SigningData(env, st))) == Some(SigningData(env, st));
    assert TokenRecord(env, n, staged, kt, ts, sig) == TokenRecord(env, n, s, kt, ts, sig);
    var c := CreateValidatorToken(env, s, kt, ts);
    var f := FinishToken(env, staged, sig);
    assert f.post == c.post;
  }

  /**
   * The external-signing protocol: the holder of the master secret signs
   * the bytes `startValidatorToken` returned; `finishToken` accepts that
   * signature on any later object whose sequence, domain, master key and
   * pending token are those the start left behind, and commits the token
   * at the next sequence.
   */
  lemma ExternalSignatureFinishes(env: Env, s: State, kt: KeyType, ts: SecretKey, mkt: KeyType, msk: SecretKey, later: State)
    requires Sound(env)
    requires s.publicKey == env.derive(mkt, msk)
    requires !TokenGuardFails(s)
    requires var staged := StartValidatorToken(env, s, kt, ts).post;
             && !later.revoked
             && later.tokenSequence == staged.tokenSequence && later.domain == staged.domain
             && later.publicKey == staged.publicKey
             && later.pendingTokenSecret == staged.pendingTokenSecret && later.pendingKeyType == staged.pendingKeyType
    ensures var hexOut := StartValidatorToken(env, s, kt, ts).out.value;
            hexOut.Some? && env.unhex(hexOut.value).Some? &&
            var r := FinishToken(env, later, env.sign(mkt, msk, env.unhex(hexOut.value).value));
            && r.out == Ok(Some(Token(env.base64(r.post.manifest), ts)))
            && r.post.tokenSequence == s.tokenSequence + 1
            && VerifyManifest(env, r.post).Pass?
            && r.post.pendingTokenSecret.None? && r.post.pendingKeyType.None?
  {
    var n := s.tokenSequence + 1;
    var st := PartialManifest(n, s.publicKey, env.derive(kt, ts), s.domain);
    assert env.unhex(env.hex(SigningData(env, st))) == Some(SigningData(env, st));
    var sig := env.sign(mkt, msk, SigningData(env, st));
    TokenRecordVerifies(env, n, later, kt, ts, mkt, msk);
    var rec := TokenRecord(env, n, later, kt, ts, sig);
    assert env.decode(env.encode(rec)) == Some(rec);
    var s1 := later.(tokenSequence := n);
    assert VerifyManifest(env, s1.(manifest := env.encode(rec))).Pass?;
  }

  /** A finished token leaves nothing pending: finishing again fails. */
  lemma FinishTwiceFails(env: Env, s: State, sig: Bytes, sig': Bytes)
    requires FinishToken(env, s, sig).out.Ok? && FinishToken(env, s, sig).out.value.Some?
    ensures var post := FinishToken(env, s, sig).post;
            FinishToken(env, post, sig') == Step(Err(NoPendingToken), post)
  {
  }

  /** Revocation with a local secret commits a verifying revocation at the reserved sequence. */
  lemma RevokeCommits(env: Env, s: State)
    requires Sound(env) && WellFormed(env, s) && s.secretKey.Some?
    ensures var r := Revoke(env, s);
            && r.out == Ok(env.base64(r.post.manifest))
            && r.post.revoked && r.post.tokenSequence == s.tokenSequence
            && VerifyManifest(env, r.post).Pass?
            && IsRevocation(env.decode(r.post.manifest).value)
            && env.decode(r.post.manifest).value.masterPk == Some(s.publicKey)
  {
    var rec := SignMaster(env, PartialRevocation(s.publicKey), s.keyType, s.secretKey.value);
    SignedFieldVerifies(env, PartialRevocation(s.publicKey), s.keyType, s.secretKey.value);
    assert env.decode(env.encode(rec)) == Some(rec);
    assert VerifyManifest(env, s.(revoked := true, manifest := env.encode(rec))).Pass?;
  }

  /** Revoking twice is the same as revoking once, in result and in state. */
  lemma RevokeIdempotent(env: Env, s: State)
    requires s.secretKey.Some?
    ensures Revoke(env, Revoke(env, s).post) == Revoke(env, s)
  {
    var r1 := Revoke(env, s);
    var rec := SignMaster(env, PartialRevocation(s.publicKey), s.keyType, s.secretKey.value);
    assert r1.post.(manifest := s.manifest, pendingTokenSecret := s.pendingTokenSecret, pendingKeyType := s.pendingKeyType)
        == s.(revoked := true);
    var v := VerifyManifest(env, s.(revoked := true, manifest := env.encode(rec)));
    assert r1.post.(manifest := env.encode(rec)) == r1.post;
    if v.Pass? {
      assert r1.post == s.(revoked := true, manifest := env.encode(rec), pendingTokenSecret := None, pendingKeyType := None);
    } else {
      assert r1.post == s.(revoked := true, manifest := env.encode(rec));
    }
  }

  /** `startRevoke` reads nothing but the master key. */
  lemma StartRevokeDependsOnlyOnMasterKey(env: Env, s: State, t: State)
    requires s.publicKey == t.publicKey
    ensures StartRevoke(env, s).out == StartRevoke(env, t).out
    ensures !StartRevoke(env, s).post.revoked <==> !s.revoked
  {
  }

  /**
   * One signature over the staged revocation bytes is accepted by
   * `finishRevoke` on any object with the same master key, whatever its
   * sequence, domain or revoked flag, and replaying it changes nothing.
   */
  lemma RevocationSignatureReplays(env: Env, s: State, mkt: KeyType, msk: SecretKey, t: State)
    requires Sound(env)
    requires s.publicKey == env.derive(mkt, msk) && t.publicKey == s.publicKey
    ensures var hexOut := StartRevoke(env, s).out.value;
            env.unhex(hexOut).Some? &&
            var sig := env.sign(mkt, msk, env.unhex(hexOut).value);
            var r := FinishRevoke(env, t, sig);
            && r.out.Ok? && r.post.revoked && r.post.tokenSequence == t.tokenSequence
            && VerifyManifest(env, r.post).Pass?
            && FinishRevoke(env, r.post, sig) == r
  {
    var st := PartialRevocation(s.publicKey);
    assert env.unhex(env.hex(SigningData(env, st))) == Some(SigningData(env, st));
    var sig := env.sign(mkt, msk, SigningData(env, st));
    var rec := RevocationRecord(t, sig);
    SigningDataIgnoresSignatures(env, rec, st);
    assert env.decode(env.encode(rec)) == Some(rec);
    var r := FinishRevoke(env, t, sig);
    assert VerifyManifest(env, t.(revoked := true, manifest := env.encode(rec))).Pass?;
    assert r.post == t.(revoked := true, manifest := env.encode(rec), pendingTokenSecret := None, pendingKeyType := None);
    assert RevocationRecord(r.post, sig) == rec;
  }

  /**
   * An object without a local secret cannot sign locally: minting (once
   * past its guard), revoking, `sign` and `signHex` all fail and leave the
   * object as it was.
   */
  lemma ExternalKeysCannotSign(env: Env, s: State, kt: KeyType, ts: SecretKey, data: string)
    requires s.secretKey.None?
    ensures !TokenGuardFails(s) ==> CreateValidatorToken(env, s, kt, ts) == Step(Err(CannotSignTokens), s)
    ensures Revoke(env, s) == Step(Err(CannotSignTokens), s)
    ensures Sign(env, s, data) == Err(CannotSign) && SignHex(env, s, data) == Err(CannotSign)
  {
  }

  /**
   * `sign(data)` with a local secret returns the hex of a signature that
   * verifies over the text's bytes under `publicKey()`.
   */
  lemma SignVerifies(env: Env, s: State, data: string)
    requires Sound(env) && WellFormed(env, s) && s.secretKey.Some?
    ensures Sign(env, s, data).Ok?
    ensures var sig := env.unhex(Sign(env, s, data).value);
            sig.Some? && env.verify(s.publicKey, Raw(data), sig.value)
  {
  }

  /**
   * `signHex(data)` with a local secret, on text that is hex once trimmed,
   * returns the hex of a signature that verifies over the decoded bytes
   * under `publicKey()`.
   */
  lemma SignHexVerifies(env: Env, s: State, data: string)
    requires Sound(env) && WellFormed(env, s) && s.secretKey.Some?
    requires env.unhex(Trim(data)).Some?
    ensures SignHex(env, s, data).Ok?
    ensures var sig := env.unhex(SignHex(env, s, data).value);
            sig.Some? && env.verify(s.publicKey, env.unhex(Trim(data)).value, sig.value)
  {
  }

  /** "a.bc", four characters with an alphabetic TLD, is the shortest accepted domain form. */
  lemma ShortestDomainAccepted(s: State)
    ensures SetDomain(s, "a.bc") == Step(Ok(()), s.(domain := "a.bc"))
  {
    var parts := ["a", "bc"];
    assert Domain.DotFree(parts[0]) && Domain.DotFree(parts[1]);
    Domain.SplitJoin(parts);
    assert Domain.Join(parts) == "a.bc";
    assert Domain.DomainCheck("a.bc");
  }

  /** Too short or too long is reported with the length message, before any pattern check. */
  lemma DomainLengthRejected(s: State)
    ensures SetDomain(s, "ab") == Step(Err(DomainLength), s)
    ensures SetDomain(s, "-.") == Step(Err(DomainLength), s)
    ensures forall d :: |d| == 129 ==> SetDomain(s, d) == Step(Err(DomainLength), s)
  {
  }

  /** A label may not start with a hyphen. */
  lemma LeadingHyphenRejected(s: State)
    ensures SetDomain(s, "-bad.com") == Step(Err(DomainFormat), s)
  {
    Domain.SplitDotFreePrefix("-bad", ".com");
    assert "-bad" + ".com" == "-bad.com";
    assert Domain.Split("-bad.com")[0] == "-bad";
    assert !Domain.IsLabel("-bad");
    assert !Domain.DomainCheck("-bad.com");
  }

  /** `operator==` is an equivalence that ignores the domain, the manifest and the pending token. */
  lemma EqualityIgnoresCommittedState(a: State, b: State, c: State, d: string, m: Bytes)
    ensures Equal(a, a)
    ensures Equal(a, b) ==> Equal(b, a)
    ensures Equal(a, b) && Equal(b, c) ==> Equal(a, c)
    ensures Equal(a, a.(domain := d, manifest := m, pendingTokenSecret := None, pendingKeyType := None))
    ensures Equal(a, b) ==> Sequence(a) == Sequence(b) && a.publicKey == b.publicKey && a.revoked == b.revoked
  {
  }
}
