# validator-keys-tool: the `ValidatorKeys` state machine in Dafny

This project models the key-management object `ValidatorKeys` of
validator-keys-tool, together with the key file it is stored in. A
validator keeps a long-lived master key. It mints a series of delegated
signing keys ("tokens"), and each token is announced by a manifest that
both keys sign. It can also revoke the master key for good. The object holds:

- the key type and the master public key;
- the master secret, which is absent in external-signing mode;
- a 32-bit token sequence and a revoked flag;
- a domain;
- the bytes of the last committed manifest;
- a staged ("pending") token secret and its key type, used while a
  master signature is obtained outside the process.

Modules, leaf first:

- `Wrappers` (`wrappers.dfy`): `Option`, `Result`, `Outcome`.
- `Primitives` (`primitives.dfy`): bytes, the `std::uint32_t` counter with
  explicit wrap-around (`Inc32`), the key types and their names.
- `Manifest` (`manifest.dfy`): the manifest record and the builders
  `generatePartialManifest` / `generatePartialRevocation`.
- `Environment` (`environment.dfy`): the collaborators the core calls but does
  not implement. These are key derivation, signing and verification, the
  binary record codec, hex, base64 and base58. They are fields of a datatype
  `Env`. The predicate `Sound(env)` states the only facts the proofs use:
  - a signature verifies under the public key derived from its secret;
  - each decoder inverts its encoder;
  - the literal "external" is not valid base58.
- `Domain` (`domain.dfy`): a hand-written checker for the domain pattern,
  proved equal to the pattern read as a grammar.
- `Json` (`json.dfy`): the JSON values a key file holds and the conversions the
  loader applies to them.
- `ValidatorKeys` (`validator_keys.dfy`): the state, the constructors and every
  member. Each member is a pure function returning `Step(out, post)`. `out` is
  the result or the thrown error. `post` is the object after the call, even
  when the call throws: `setManifest` stores the new bytes before verifying
  them, and `finishToken` and `revoke` change the sequence or the revoked flag
  before that.
- `KeyFile` (`key_file.dfy`): `make_ValidatorKeys` and `writeToFile` as
  functions between a state and a JSON document.
- `Protocol` (`protocol.dfy`): properties that relate several members.
- `Lifecycle` (`lifecycle.dfy`): the key file across invocations. An invocation
  that throws leaves the file unchanged, because the command layer only writes
  after a member returns normally.

Behaviour of the code that a reader may not expect, which the model keeps:

- `startValidatorToken` returns only the hash prefix and the record without
  signature fields. It does not return a delegated-key signature.
- `finishToken` on a revoked object returns nothing rather than failing.
- A commit whose verification fails keeps its new bytes and any changes to the
  sequence or revoked flag made before it. It also leaves the pending token
  in place.
- `manifest()` returns the stored bytes without verifying them again. A loaded
  manifest is never verified.
- The pending secret and the pending key type are two independent optional
  fields, and the loader reads each one on its own.
- The JSON library counts booleans as integral, so a "token_sequence" of
  `true` or `false` loads as 1 or 0.
- `src/ValidatorKeys.h` declares an older interface: a mandatory secret, no
  public-key constructor, no pending fields, no start/finish members. From it
  the model takes only `operator==`, the accessors and the default token key
  type.

The accessors `publicKey()`, `revoked()`, `domain()` and `manifest()` are the
fields of `ValidatorKeys.State`. `sequence()` is `ValidatorKeys.Sequence`.
None of them has a side effect.

## Model

| member | source | states |
|---|---|---|
| `Primitives.Inc32` | src/ValidatorKeys.cpp:415 | `++` on the 32-bit counter adds one below the maximum and wraps the maximum to zero |
| `Primitives.KeyTypeFromString` | src/ValidatorKeys.cpp:112-113 | a key type is recognised only from its own name |
| `Primitives.KeyTypeNameRoundTrip` | src/ValidatorKeys.cpp:261 | the written key-type name reads back as the same key type |
| `Primitives.Raw` | src/ValidatorKeys.cpp:510-511 | the bytes signed for a text are the text's own characters, one byte each, in order |
| `Manifest.Unsigned` | src/ValidatorKeys.cpp:396-398 | the signed pre-image drops both signature fields and keeps every other field |
| `Manifest.PartialManifest` | src/ValidatorKeys.cpp:319-335 | an unsigned delegation record with the given sequence, master key and signing key; it has a domain field exactly when the domain is non-empty |
| `Manifest.PartialRevocation` | src/ValidatorKeys.cpp:337-345 | an unsigned revocation record at sequence 2^32-1 that names the master key and no signing key |
| `Manifest.BuildersDisjoint` | src/ValidatorKeys.cpp:319-345 | no delegation record is a revocation record, and no revocation record is a delegation |
| `Environment.SignDelegated` | src/ValidatorKeys.cpp:367 | signing fills the signature field over the pre-image and leaves the pre-image unchanged |
| `Environment.SignMaster` | src/ValidatorKeys.cpp:368-373 | master signing fills the master-signature slot over the same pre-image |
| `Environment.SigningDataIgnoresSignatures` | src/ValidatorKeys.cpp:396-398 | records that differ only in signature fields have the same signed bytes |
| `Environment.SignedFieldVerifies` | src/test/ValidatorKeys_test.cpp:205-215 | a field signed with a secret verifies under the key derived from that secret |
| `Domain.DomainCheckMatchesPattern` | src/ValidatorKeys.cpp:545-556 | the split-on-dots checker accepts exactly the strings made of one or more labels, each followed by '.', and then a TLD |
| `Domain.JoinSplit` | src/ValidatorKeys.cpp:545-556 | re-joining the dot-separated pieces of a string gives back the string |
| `Domain.SplitJoin` | src/ValidatorKeys.cpp:545-556 | splitting dot-free pieces joined by dots gives back the pieces |
| `Domain.SplitDotFreePrefix` | src/ValidatorKeys.cpp:548-551 | a dot-free prefix becomes part of the first piece |
| `Domain.DottedJoin` | src/ValidatorKeys.cpp:547-553 | labels each followed by '.', then the TLD, is the dot-join of labels and TLD |
| `Domain.ValidateDomain` | src/ValidatorKeys.cpp:532-562 | the empty string passes; otherwise a length outside 4..128 fails with the length error before any pattern check; otherwise the string passes exactly when it matches the pattern |
| `Json.Get` | src/ValidatorKeys.cpp:234 | reading a member the document lacks yields null |
| `Json.AsString` | src/ValidatorKeys.cpp:240-241 | strings convert to themselves; reals, arrays and objects do not convert |
| `Json.AsUInt` | src/ValidatorKeys.cpp:155-158 | a boolean converts to 1 or 0; an integer converts exactly when it fits a `std::uint32_t`, to its own value |
| `Json.NonStringIsNoKeyType` | src/ValidatorKeys.cpp:238-248 | the unchecked conversion of "pending_key_type" never turns a non-string into a key type |
| `ValidatorKeys.Generate` | src/ValidatorKeys.cpp:50-56 | a fresh object with the generated secret, sequence 0, not revoked, nothing committed or staged |
| `ValidatorKeys.FromSecret` | src/ValidatorKeys.cpp:58-68 | the public key is derived from the secret; the sequence and revoked flag are as given; nothing is committed or staged |
| `ValidatorKeys.FromPublic` | src/ValidatorKeys.cpp:70-80 | external mode: no secret, the given public key, sequence and revoked flag |
| `ValidatorKeys.VerifyManifest` | src/ValidatorKeys.cpp:296-316 | passes exactly when the stored bytes decode to a record with a valid master signature under its own master key, no signing key if revoked, and otherwise a signing key with a valid signature; decoded bytes that fail these checks give "Manifest is not properly signed", and bytes that do not decode give the deserializer's error |
| `ValidatorKeys.SetManifest` | src/ValidatorKeys.cpp:487-501 | the stored bytes are always replaced; the call succeeds exactly when they verify; only then is the pending token cleared; nothing else changes |
| `ValidatorKeys.CommittedManifestVerifies` | src/ValidatorKeys.cpp:497-500 | after a commit that returns normally, the stored manifest verifies |
| `ValidatorKeys.TokenRecord` | src/ValidatorKeys.cpp:420-424 | the delegation signed by the token secret, carrying the given master signature |
| `ValidatorKeys.CreateValidatorToken` | src/ValidatorKeys.cpp:347-379 | revoked or sequence >= 2^32-2: no token and no change. No secret: throws with no change. Otherwise: the sequence rises by exactly one, the committed record is the doubly signed delegation at the new sequence, and nothing else changes. It returns normally exactly when the committed manifest verifies, and then clears the pending token; a failure carries the verification error and keeps the pending token |
| `ValidatorKeys.CreateValidatorTokenDefault` | src/ValidatorKeys.h:114-115 | with no key type given, the token key is secp256k1 |
| `ValidatorKeys.StartValidatorToken` | src/ValidatorKeys.cpp:381-404 | never throws. Under the same guard as minting it returns nothing and changes nothing. Otherwise it returns the hex of the pre-image of the delegation at sequence+1 and stages the token; sequence, revoked flag and manifest are untouched |
| `ValidatorKeys.FinishToken` | src/ValidatorKeys.cpp:406-430 | revoked: nothing and no change. Either pending field absent: "No pending token to finish" with no change. Otherwise the sequence is incremented with wrap-around and no ceiling check, and the delegation is rebuilt from the staged key with the given master signature. It returns normally exactly when the committed manifest verifies; a failure carries the verification error and keeps the increment and the pending token |
| `ValidatorKeys.RevocationRecord` | src/ValidatorKeys.cpp:478-480 | the revocation record with the given master signature and no delegated signature |
| `ValidatorKeys.Revoke` | src/ValidatorKeys.cpp:432-454 | no secret: throws before setting the flag. Otherwise: revoked is set unconditionally, the master-signed revocation is committed, and the sequence is untouched. It returns normally exactly when the committed manifest verifies; a failure carries the verification error and keeps the pending token |
| `ValidatorKeys.StartRevoke` | src/ValidatorKeys.cpp:456-471 | returns the hex of the revocation pre-image, clears the pending token and changes nothing else |
| `ValidatorKeys.FinishRevoke` | src/ValidatorKeys.cpp:473-485 | sets revoked unconditionally and commits the revocation with the given signature; the sequence is untouched. It returns normally exactly when the committed manifest verifies, so a bad signature gives "Manifest is not properly signed"; a failure keeps the pending token |
| `ValidatorKeys.Sign` | src/ValidatorKeys.cpp:503-512 | fails with "cannot be used to sign" exactly when there is no local secret; otherwise succeeds with the hex signature of the text's bytes |
| `ValidatorKeys.TrimLeft` | src/ValidatorKeys.cpp:521 | removes only leading white space, up to the first other character |
| `ValidatorKeys.TrimRight` | src/ValidatorKeys.cpp:521 | removes only trailing white space, back to the last other character |
| `ValidatorKeys.Trim` | src/ValidatorKeys.cpp:521 | the result is an infix with only white space outside it and no white space at either end |
| `ValidatorKeys.SignHex` | src/ValidatorKeys.cpp:514-527 | no secret: fails first. Bad hex after trimming: "Could not decode hex string: " followed by the trimmed text. Otherwise: signs the decoded bytes |
| `ValidatorKeys.SetDomain` | src/ValidatorKeys.cpp:529-565 | "" is always accepted; a bad length fails with the length message; an in-range domain is accepted exactly when it matches the pattern and otherwise fails with the format message; the domain is assigned only on success, and a failure changes nothing |
| `KeyFile.FirstMissing` | src/ValidatorKeys.cpp:99-110 | finds the first required member, in check order, that the document lacks |
| `KeyFile.ReadKeyType` | src/ValidatorKeys.cpp:112-119 | "key_type" must name a key type, else the error quotes that member |
| `KeyFile.ReadKeys` | src/ValidatorKeys.cpp:121-150 | "external" needs a "public_key": a missing one gives the missing-member error and one that does not parse gives the "public_key" error, and a parseable one succeeds; any other "secret_key" succeeds exactly when it parses, and otherwise gives the "secret_key" error |
| `KeyFile.ReadSequence` | src/ValidatorKeys.cpp:152-166 | a boolean "token_sequence" loads as 1 or 0; an integer loads exactly when it is within 0..2^32-1, as itself; anything else, and every failure, gives that member's error |
| `KeyFile.ReadMandatory` | src/ValidatorKeys.cpp:99-172 | a missing required member is reported first, in order; then the checks run as key type, keys, sequence, revoked flag, and the first that fails gives its own member's error; when all pass, the result holds exactly the values they read |
| `KeyFile.Construct` | src/ValidatorKeys.cpp:174-184 | builds from the secret when it parsed, with the public key derived from it; otherwise from the public key |
| `KeyFile.ApplyDomain` | src/ValidatorKeys.cpp:186-195 | an optional "domain" must be a string that `domain()` accepts; a non-string gives the "domain" error, and a rejected string gives the length or format message of `domain()` |
| `KeyFile.ApplyManifest` | src/ValidatorKeys.cpp:197-216 | an optional "manifest" must be non-empty hex, and is stored without verification |
| `KeyFile.ApplyPendingSecret` | src/ValidatorKeys.cpp:218-236 | an optional "pending_token_secret" must parse; on failure the error quotes "pending_manifest" |
| `KeyFile.ApplyPendingKeyType` | src/ValidatorKeys.cpp:238-250 | an optional "pending_key_type" is converted without a type check; on failure the error quotes "key_type" |
| `KeyFile.Load` | src/ValidatorKeys.cpp:82-253 | open and parse failures; a mandatory-member error is passed on unchanged; otherwise the first invalid optional member, in file order, gives its own error, and the load succeeds exactly when there is none; then the object holds the keys, sequence and revoked flag read, and each optional member's value or its empty default |
| `KeyFile.ApplyOptional` | src/ValidatorKeys.cpp:186-250 | the optional members, applied in file order, succeed exactly when each present one is valid; the first invalid one gives its error; a success sets exactly the fields whose members are present |
| `KeyFile.OptionalError` | src/ValidatorKeys.cpp:186-250 | there is no optional-member error exactly when every optional member present is valid |
| `KeyFile.Write` | src/ValidatorKeys.cpp:260-276 | always writes key type, public key, the secret or "external", sequence and revoked flag, and writes no member outside the nine the key file defines |
| `KeyFile.WriteOptionalFields` | src/ValidatorKeys.cpp:268-276 | writes domain and manifest only when non-empty, and each pending member only when set; never writes "pending_manifest" |
| `KeyFile.WriteReadsMandatory` | src/ValidatorKeys.cpp:99-172 | the mandatory members of a written file read back as the key type, keys, sequence and revoked flag they were written from |
| `KeyFile.WrittenOptionalValid` | src/ValidatorKeys.cpp:186-250 | every optional member of a written key file is one the loader accepts |
| `KeyFile.WrittenLoadedFrom` | src/ValidatorKeys.cpp:260-276 | a well-formed object holds exactly what its own key file says |
| `KeyFile.LoadedFromUnique` | src/ValidatorKeys.cpp:174-250 | the members of a document determine every field of the loaded object |
| `KeyFile.WriteLoadRoundTrip` | src/test/ValidatorKeys_test.cpp:311-322 | loading what was written gives the identical object, equal under `operator==` too, whether or not its manifest verifies |
| `KeyFile.LoadedIsWellFormed` | src/ValidatorKeys.cpp:174-195 | a loaded object's public key matches its secret or its key type, and its domain is valid |
| `KeyFile.NegativeSequenceRejected` | src/test/ValidatorKeys_test.cpp:154-158 | a "token_sequence" of -1 is rejected with that member's message |
| `KeyFile.TopSequenceLoads` | src/test/ValidatorKeys_test.cpp:160-169 | a "token_sequence" of 2^32-1 loads |
| `KeyFile.BooleanSequenceLoads` | src/ValidatorKeys.cpp:155-158 | a key file whose "token_sequence" is edited to `true` loads, at sequence 1, with every other field as written |
| `Protocol.TokenRecordVerifies` | src/ValidatorKeys.cpp:307-315 | a delegation signed by its token key and by the master secret passes the unrevoked rule |
| `Protocol.CreateValidatorTokenCommits` | src/test/ValidatorKeys_test.cpp:186-216 | local minting succeeds and raises the sequence by one. The committed record verifies and decodes to that sequence, the master key and the fresh token key, with a domain exactly when one is set |
| `Protocol.CreateValidatorTokenBoundary` | src/test/ValidatorKeys_test.cpp:219-227 | at 2^32-3 minting reaches 2^32-2; at 2^32-2 it returns nothing |
| `Protocol.StartFinishMatchesCreate` | src/ValidatorKeys.cpp:381-430 | staging and then finishing with the master's signature gives the same result and object as local minting |
| `Protocol.ExternalSignatureFinishes` | src/ValidatorKeys.cpp:393-424 | a master signature over the staged bytes makes a later `finishToken` succeed if sequence, domain, key and pending token are unchanged; the result verifies at sequence+1 |
| `Protocol.FinishTwiceFails` | src/test/ValidatorKeysTool_test.cpp:379-391 | a second `finishToken` after a successful one reports that no token is pending |
| `Protocol.RevokeCommits` | src/test/ValidatorKeys_test.cpp:238-258 | local revocation succeeds; the committed record verifies and is a revocation of this master key; the sequence is unchanged |
| `Protocol.RevokeIdempotent` | src/ValidatorKeys.cpp:440-451 | revoking a revoked object again gives the same result and the same object |
| `Protocol.StartRevokeDependsOnlyOnMasterKey` | src/ValidatorKeys.cpp:461-470 | the staged revocation bytes depend on the master key alone, and staging does not revoke |
| `Protocol.RevocationSignatureReplays` | src/test/ValidatorKeysTool_test.cpp:534-545 | one signature over the staged revocation is accepted on any object with that master key, and replaying it changes nothing |
| `Protocol.SignVerifies` | src/test/ValidatorKeys_test.cpp:283-292 | with a local secret, `sign` returns the hex of a signature over the text's bytes that verifies under `publicKey()` |
| `Protocol.SignHexVerifies` | src/ValidatorKeys.cpp:514-527 | with a local secret and text that is hex once trimmed, `signHex` returns the hex of a signature over the decoded bytes that verifies under `publicKey()` |
| `Protocol.ExternalKeysCannotSign` | src/ValidatorKeys.cpp:355-357 | without a secret, minting (past its guard), revoking, `sign` and `signHex` fail and change nothing |
| `Protocol.ShortestDomainAccepted` | src/ValidatorKeys.cpp:537-558 | "a.bc" is accepted |
| `Protocol.DomainLengthRejected` | src/ValidatorKeys.cpp:537-539 | "ab", "-." and every 129-character string fail with the length message |
| `Protocol.LeadingHyphenRejected` | src/ValidatorKeys.cpp:548 | "-bad.com" fails with the format message |
| `Protocol.EqualityIgnoresCommittedState` | src/ValidatorKeys.h:92-97 | `operator==` is an equivalence over revoked flag, key type, sequence and keys, and ignores domain, manifest and pending token |
| `Lifecycle.PersistStep` | src/ValidatorKeys.cpp:381-415 | one invocation keeps "a staged token implies sequence < 2^32-2", the keys and a valid domain. The sequence never falls, the revoked flag is never cleared, and a persisted token raises the sequence by exactly one |
| `Lifecycle.RunPreserves` | src/ValidatorKeys.cpp:384-415 | over any series of invocations the invariant and the keys hold, the sequence never decreases and revocation is never undone |
| `Lifecycle.RevokedSequenceFrozen` | src/ValidatorKeys.cpp:350-352 | once revoked, no series of invocations changes the sequence |
| `Lifecycle.PersistKeepsCommittedVerified` | src/ValidatorKeys.cpp:487-501 | if every committed manifest verifies before an invocation, it still does after the invocation is persisted |
| `Lifecycle.RunKeepsCommittedVerified` | src/ValidatorKeys.cpp:487-501 | the same over any series of invocations |
| `Lifecycle.ConstructedSatisfiesInvariant` | src/ValidatorKeys.cpp:58-80 | every constructed object satisfies both invariants and is well formed |
| `Lifecycle.LoadedPendingTokenWraps` | src/ValidatorKeys.cpp:409-415 | a key file at 2^32-1 with a staged token loads as written, and finishing it wraps the sequence to 0 |
| `Lifecycle.HalfPendingLoads` | src/ValidatorKeys.cpp:218-250 | a file with a pending secret but no pending key type loads, and `finishToken` then reports nothing pending |

## Left out

- File system: failures to open or parse the file are an input to
  `KeyFile.Load` (`FileInput`). Directory creation and open-for-write failures
  in `writeToFile` (src/ValidatorKeys.cpp:278-293) are not modelled, and
  `KeyFile.Write` returns the document instead of writing it.
- Cryptography is abstract. Key generation, `randomSeed`, `derivePublicKey`,
  signing, verification and `publicKeyType` are `Env` fields. Fresh secrets
  are parameters. Signatures are deterministic functions of key and message.
- Unforgeability is not assumed. `Sound` says that good signatures verify,
  but not that bad ones fail. So the model does not prove that tampering with a
  committed manifest, or finishing with an unrelated signature, is rejected.
- The record codec (`STObject`, `Serializer`, `SerialIter`) is an
  encode/decode pair with decode(encode(r)) = r. Hex, base64 and base58 are
  likewise abstract. `ValidatorToken::toString` (src/ValidatorKeys.cpp:40-48)
  is not modelled.
- `ValidatorKeys.VerifyManifest`: stored bytes that do not decode fail with an
  error of their own, `MalformedManifest`. In the source the deserializer
  throws its own exception there. The text `ValidatorKeys.Message` gives for
  it is a stand-in, because that exception's text is not part of this model.
- The JSON library: documents are maps from member names to values.
  `asString` of a real, an array or an object is treated as not convertible.
  `isIntegral` holds of integers and booleans, and `asUInt` reads a boolean as
  1 or 0, as the library defines them. Signed and unsigned integers are one
  kind of value. The library's own source is not part of this model.
  The styled rendering used in error messages is a parameter of
  `ValidatorKeys.Message`. A top-level value that is not an object counts as
  a parse failure.
- Strings are sequences of characters, and each character stands for one byte
  of the `std::string`. There is no UTF-8 handling.
- `Lifecycle.CommittedVerifies` is proved for constructed objects and kept by
  every persisted invocation. Loading does not establish it, because
  `make_ValidatorKeys` stores the "manifest" member without verifying it.
- `KeyFile.Load` requires the debug assertion at src/ValidatorKeys.cpp:180:
  an external key file names the key type of its public key.
- The command layer (src/ValidatorKeysTool.cpp, src/ValidatorKeysTool.h) and the
  test fixture src/test/KeyFileGuard.h are not part of this model. The tests
  serve only as evidence of intended behaviour.
