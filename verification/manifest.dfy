/**
 * The manifest record (an `STObject` of the generic type) and the two
 * builders that assemble its unsigned form.
 */
module Manifest {
  import opened Wrappers
  import opened Primitives

  /**
   * The fields of a manifest the tool reads or writes. Every field is
   * optional because a decoded object may lack any of them.
   * `signature` is `sfSignature` (by the delegated key) and
   * `masterSignature` is `sfMasterSignature` (by the master key); both are
   * signing fields, i.e. excluded from the signed pre-image.
   */
  datatype Record = Record(
    sequence: Option<Uint32>,
    masterPk: Option<PublicKey>,
    signingPk: Option<PublicKey>,
    domain: Option<string>,
    signature: Option<Bytes>,
    masterSignature: Option<Bytes>)

  /** The record minus both signature fields (`addWithoutSigningFields`). */
  function Unsigned(r: Record): (u: Record)
    ensures u.signature.None? && u.masterSignature.None?
    ensures u.sequence == r.sequence && u.masterPk == r.masterPk
    ensures u.signingPk == r.signingPk && u.domain == r.domain
  {
    r.(signature := None, masterSignature := None)
  }

  /** `HashPrefix::manifest`: the big-endian bytes of 'M', 'A', 'N', 0. */
  const ManifestPrefix: Bytes := [0x4D, 0x41, 0x4E, 0x00]

  /**
   * `generatePartialManifest`: an unsigned delegation record. The domain
   * field is set only for a non-empty domain.
   */
  function PartialManifest(sequence: Uint32, masterPk: PublicKey, signingPk: PublicKey, domain: string): (r: Record)
    ensures IsDelegation(r) && Unsigned(r) == r
    ensures r.sequence == Some(sequence)
    ensures r.masterPk == Some(masterPk) && r.signingPk == Some(signingPk)
    ensures r.domain.Some? <==> domain != ""
    ensures r.domain.Some? ==> r.domain.value == domain
  {
    Record(Some(sequence), Some(masterPk), Some(signingPk),
           if domain == "" then None else Some(domain), None, None)
  }

  /**
   * `generatePartialRevocation`: an unsigned revocation record at the
   * reserved sequence, naming only the master key.
   */
  function PartialRevocation(masterPk: PublicKey): (r: Record)
    ensures IsRevocation(r) && Unsigned(r) == r
    ensures r.sequence == Some(UINT32_MAX) && r.masterPk == Some(masterPk)
    ensures r.domain.None?
  {
    Record(Some(UINT32_MAX), Some(masterPk), None, None, None, None)
  }

  /** A record that names a delegated key. */
  predicate IsDelegation(r: Record)
  {
    r.masterPk.Some? && r.signingPk.Some?
  }

  /** A record at the reserved sequence that names no delegated key. */
  predicate IsRevocation(r: Record)
  {
    r.sequence == Some(UINT32_MAX) && r.masterPk.Some? && r.signingPk.None?
  }

  /** The two builders never produce records of the same kind. */
  lemma BuildersDisjoint(n: Uint32, master: PublicKey, signing: PublicKey, domain: string, master': PublicKey)
    ensures PartialManifest(n, master, signing, domain) != PartialRevocation(master')
    ensures !IsRevocation(PartialManifest(n, master, signing, domain))
    ensures !IsDelegation(PartialRevocation(master'))
  {
  }
}
