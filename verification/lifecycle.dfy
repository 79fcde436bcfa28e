/**
 * The key file across invocations. Each invocation loads the object,
 * runs one member and writes the object back only when the member
 * returned normally; a member that throws leaves the file as it was.
 */
module Lifecycle {
  import opened Wrappers
  import opened Primitives
  import opened Environment
  import opened ValidatorKeys
  import opened KeyFile

  /** One invocation's member, with the randomness or signature it consumes. */
  datatype Op =
    | CreateToken(kt: KeyType, ts: SecretKey)
    | StartToken(kt: KeyType, ts: SecretKey)
    | FinishTokenWith(masterSig: Bytes)
    | RevokeKeys
    | StartRevocation
    | FinishRevocationWith(masterSig: Bytes)
    | SetDomainTo(d: string)
    | SignData(data: string)
    | SignHexData(data: string)

  /** Whether the member returned normally, and the object it left. */
  function Apply(env: Env, s: State, op: Op): (bool, State)
  {
    match op
    case CreateToken(kt, ts) => var r := CreateValidatorToken(env, s, kt, ts); (r.out.Ok?, r.post)
    case StartToken(kt, ts) => var r := StartValidatorToken(env, s, kt, ts); (r.out.Ok?, r.post)
    case FinishTokenWith(sig) => var r := FinishToken(env, s, sig); (r.out.Ok?, r.post)
    case RevokeKeys => var r := Revoke(env, s); (r.out.Ok?, r.post)
    case StartRevocation => var r := StartRevoke(env, s); (r.out.Ok?, r.post)
    case FinishRevocationWith(sig) => var r := FinishRevoke(env, s, sig); (r.out.Ok?, r.post)
    case SetDomainTo(d) => var r := SetDomain(s, d); (r.out.Ok?, r.post)
    case SignData(data) => (Sign(env, s, data).Ok?, s)
    case SignHexData(data) => (SignHex(env, s, data).Ok?, s)
  }

  /** The object as persisted after one invocation. */
  function Persist(env: Env, s: State, op: Op): State
  {
    var (ok, post) := Apply(env, s, op);
    if ok then post else s
  }

  /** The object as persisted after a series of invocations. */
  function Run(env: Env, s: State, ops: seq<Op>): State
    decreases |ops|
  {
    if |ops| == 0 then s else Run(env, Persist(env, s, ops[0]), ops[1..])
  }

  /** A staged token never sits at a sequence whose successor is reserved. */
  predicate PendingBelowCeiling(s: State)
  {
    s.pendingTokenSecret.Some? || s.pendingKeyType.Some? ==> s.tokenSequence < UINT32_MAX - 1
  }

  /** The master key and key type never change. */
  predicate SameKeys(s: State, t: State)
  {
    s.keyType == t.keyType && s.publicKey == t.publicKey && s.secretKey == t.secretKey
  }

  /**
   * One invocation keeps the invariant, the keys and a valid domain, never
   * lowers the sequence, never clears the revoked flag, and raises the
   * sequence by exactly one when it persists a new token.
   */
  lemma PersistStep(env: Env, s: State, op: Op)
    requires PendingBelowCeiling(s) && WellFormed(env, s)
    ensures var t := Persist(env, s, op);
            && PendingBelowCeiling(t) && WellFormed(env, t) && SameKeys(s, t)
            && s.tokenSequence <= t.tokenSequence
            && (s.revoked ==> t.revoked)
            && ((op.CreateToken? || op.FinishTokenWith?) && t != s ==> t.tokenSequence == s.tokenSequence + 1)
            && (!(op.CreateToken? || op.FinishTokenWith?) ==> t.tokenSequence == s.tokenSequence)
  {
  }

  /** Over any series of invocations the persisted object keeps all of the above. */
  lemma {:induction false} RunPreserves(env: Env, s: State, ops: seq<Op>)
    requires PendingBelowCeiling(s) && WellFormed(env, s)
    ensures var t := Run(env, s, ops);
            && PendingBelowCeiling(t) && WellFormed(env, t) && SameKeys(s, t)
            && s.tokenSequence <= t.tokenSequence
            && (s.revoked ==> t.revoked)
    decreases |ops|
  {
    if |ops| > 0 {
      PersistStep(env, s, ops[0]);
      RunPreserves(env, Persist(env, s, ops[0]), ops[1..]);
    }
  }

  /**
   * Every manifest the object committed verifies: a member that returns
   * normally has verified what it stored, and the other members leave the
   * bytes and the revoked flag alone. The loader does not check this, so it
   * holds of a loaded object only if it held when the file was written.
   */
  predicate CommittedVerifies(env: Env, s: State)
  {
    s.manifest != [] ==> VerifyManifest(env, s).Pass?
  }

  /** One persisted invocation keeps every committed manifest verifying. */
  lemma PersistKeepsCommittedVerified(env: Env, s: State, op: Op)
    requires CommittedVerifies(env, s)
    ensures CommittedVerifies(env, Persist(env, s, op))
  {
  }

  /** Any series of persisted invocations keeps every committed manifest verifying. */
  lemma {:induction false} RunKeepsCommittedVerified(env: Env, s: State, ops: seq<Op>)
    requires CommittedVerifies(env, s)
    ensures CommittedVerifies(env, Run(env, s, ops))
    decreases |ops|
  {
    if |ops| > 0 {
      PersistKeepsCommittedVerified(env, s, ops[0]);
      RunKeepsCommittedVerified(env, Persist(env, s, ops[0]), ops[1..]);
    }
  }

  /** Once revoked, no invocation persists a new token sequence. */
  lemma {:induction false} RevokedSequenceFrozen(env: Env, s: State, ops: seq<Op>)
    requires s.revoked
    ensures Run(env, s, ops).revoked && Run(env, s, ops).tokenSequence == s.tokenSequence
    decreases |ops|
  {
    if |ops| > 0 {
      var t := Persist(env, s, ops[0]);
      assert t.revoked && t.tokenSequence == s.tokenSequence;
      RevokedSequenceFrozen(env, t, ops[1..]);
    }
  }

  /** Every constructor yields an object the invariant holds for. */
  lemma ConstructedSatisfiesInvariant(env: Env, kt: KeyType, sk: SecretKey, pk: PublicKey, n: Uint32, revoked: bool)
    ensures PendingBelowCeiling(FromSecret(env, kt, sk, n, revoked))
    ensures PendingBelowCeiling(FromPublic(kt, pk, n, revoked))
    ensures WellFormed(env, FromSecret(env, kt, sk, n, revoked))
    ensures env.keyTypeOf(pk) == Some(kt) ==> WellFormed(env, FromPublic(kt, pk, n, revoked))
    ensures CommittedVerifies(env, FromSecret(env, kt, sk, n, revoked)) && CommittedVerifies(env, FromPublic(kt, pk, n, revoked))
  {
  }

  /**
   * The loader does not re-establish the invariant: a key file at the top
   * sequence with a staged token loads as written, and finishing that token
   * wraps the sequence around to zero.
   */
  lemma LoadedPendingTokenWraps(env: Env, s: State, sig: Bytes)
    requires Sound(env) && WellFormed(env, s)
    requires !s.revoked && s.tokenSequence == UINT32_MAX
    requires s.pendingTokenSecret.Some? && s.pendingKeyType.Some?
    ensures LoadAssertion(env, Parsed(Write(env, s)))
    ensures Load(env, Parsed(Write(env, s))) == Ok(s)
    ensures !PendingBelowCeiling(s)
    ensures FinishToken(env, s, sig).post.tokenSequence == 0
  {
    WriteLoadRoundTrip(env, s);
  }

  /**
   * The loader reads the two pending members independently: a file with a
   * staged secret but no staged key type loads, and `finishToken` on it
   * reports that nothing is pending.
   */
  lemma HalfPendingLoads(env: Env, s: State, sig: Bytes)
    requires Sound(env) && WellFormed(env, s) && !s.revoked
    requires s.pendingTokenSecret.Some? && s.pendingKeyType.None?
    ensures LoadAssertion(env, Parsed(Write(env, s)))
    ensures Load(env, Parsed(Write(env, s))) == Ok(s)
    ensures FinishToken(env, s, sig) == Step(Err(NoPendingToken), s)
  {
    WriteLoadRoundTrip(env, s);
  }
}
