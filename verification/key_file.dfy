/**
 * The key-file codec: `make_ValidatorKeys` reads a JSON object into a
 * state and `writeToFile` renders a state as one. File-system access is
 * outside the model; the loader receives what reading and parsing the file
 * produced.
 */
module KeyFile {
  import opened Wrappers
  import opened Primitives
  import opened Environment
  import opened Json
  import opened ValidatorKeys
  import Domain

  /** What opening and parsing the file produced. */
  datatype FileInput = Unreadable | Unparseable | Parsed(doc: Document)

  /** The members every key file must have, in the order they are checked. */
  const RequiredFields: seq<string> := ["key_type", "secret_key", "token_sequence", "revoked"]

  /** The first of `fields` the document lacks. */
  function FirstMissing(doc: Document, fields: seq<string>): (r: Option<string>)
    ensures r.None? <==> forall i :: 0 <= i < |fields| ==> fields[i] in doc
    ensures r.Some? ==> exists i :: 0 <= i < |fields| && fields[i] == r.value && r.value !in doc
                                    && forall j :: 0 <= j < i ==> fields[j] in doc
  {
    if |fields| == 0 then None
    else if fields[0] !in doc then Some(fields[0])
    else
      var r := FirstMissing(doc, fields[1..]);
      if r.Some? then
        ghost var i :| 0 <= i < |fields[1..]| && fields[1..][i] == r.value && r.value !in doc
                       && forall j :: 0 <= j < i ==> fields[1..][j] in doc;
        assert fields[i + 1] == r.value;
        r
      else r
  }

  predicate HasRequired(doc: Document)
  {
    "key_type" in doc && "secret_key" in doc && "token_sequence" in doc && "revoked" in doc
  }

  /** The mandatory part of a key file, validated. */
  datatype Mandatory = Mandatory(
    keyType: KeyType,
    secret: Option<SecretKey>,
    pub: Option<PublicKey>,
    sequence: Uint32,
    revoked: bool)

  /** The key type named by "key_type". */
  function ReadKeyType(doc: Document): (r: Result<KeyType, Error>)
    requires "key_type" in doc
    ensures r.Ok? <==> AsString(doc["key_type"]).Some? && KeyTypeFromString(AsString(doc["key_type"]).value).Some?
    ensures r.Ok? ==> AsString(doc["key_type"]) == Some(KeyTypeName(r.value))
    ensures r.Err? ==> r.error == (if AsString(doc["key_type"]).None? then NotConvertible
                                   else InvalidField("key_type", doc["key_type"]))
  {
    match AsString(doc["key_type"])
    case None => Err(NotConvertible)
    case Some(text) =>
      match KeyTypeFromString(text)
      case None => Err(InvalidField("key_type", doc["key_type"]))
      case Some(kt) => Ok(kt)
  }

  /**
   * The master key: the parsed "secret_key", and, when that member is the
   * literal "external", the parsed "public_key", which must then be present.
   */
  function ReadKeys(env: Env, doc: Document): (r: Result<(Option<SecretKey>, Option<PublicKey>), Error>)
    requires "secret_key" in doc
    ensures r.Ok? ==> r.value.0.Some? || r.value.1.Some?
    ensures r.Ok? ==> AsString(doc["secret_key"]).Some?
                      && r.value.0 == env.parseSecret(AsString(doc["secret_key"]).value)
    ensures r.Ok? && AsString(doc["secret_key"]) == Some("external") ==>
              "public_key" in doc && AsString(doc["public_key"]).Some?
              && r.value.1 == env.parsePublic(AsString(doc["public_key"]).value)
    ensures AsString(doc["secret_key"]).None? ==> r == Err(NotConvertible)
    ensures AsString(doc["secret_key"]) == Some("external") && "public_key" !in doc ==> r == Err(MissingField("public_key"))
    ensures AsString(doc["secret_key"]) == Some("external") && "public_key" in doc ==>
              && (AsString(doc["public_key"]).None? ==> r == Err(NotConvertible))
              && (AsString(doc["public_key"]).Some? && env.parsePublic(AsString(doc["public_key"]).value).None? ==>
                    r == Err(InvalidField("public_key", doc["public_key"])))
              && (AsString(doc["public_key"]).Some? && env.parsePublic(AsString(doc["public_key"]).value).Some? ==>
                    r == Ok((env.parseSecret("external"), env.parsePublic(AsString(doc["public_key"]).value))))
    ensures (&& AsString(doc["secret_key"]).Some? && AsString(doc["secret_key"]) != Some("external")
             && env.parseSecret(AsString(doc["secret_key"]).value).Some?) ==>
              r == Ok((env.parseSecret(AsString(doc["secret_key"]).value), None))
    ensures (&& AsString(doc["secret_key"]).Some? && AsString(doc["secret_key"]) != Some("external")
             && env.parseSecret(AsString(doc["secret_key"]).value).None?) ==> r == Err(InvalidField("secret_key", doc["secret_key"]))
  {
    match AsString(doc["secret_key"])
    case None => Err(NotConvertible)
    case Some(text) =>
      var secret := env.parseSecret(text);
      if text == "external" then
        if "public_key" !in doc then Err(MissingField("public_key"))
        else match AsString(doc["public_key"])
          case None => Err(NotConvertible)
          case Some(pkText) =>
            match env.parsePublic(pkText)
            case None => Err(InvalidField("public_key", doc["public_key"]))
            case Some(pk) => Ok((secret, Some(pk)))
      else if secret.None? then Err(InvalidField("secret_key", doc["secret_key"]))
      else Ok((secret, None))
  }

  /**
   * "token_sequence": an integral value that fits a `std::uint32_t`. The
   * JSON library counts booleans as integral, so `true` reads as 1 and
   * `false` as 0.
   */
  function ReadSequence(doc: Document): (r: Result<Uint32, Error>)
    requires "token_sequence" in doc
    ensures doc["token_sequence"].Bool? ==> r == Ok(if doc["token_sequence"].b then 1 else 0)
    ensures doc["token_sequence"].Int? ==> (r.Ok? <==> 0 <= doc["token_sequence"].i <= UINT32_MAX)
    ensures doc["token_sequence"].Int? && r.Ok? ==> r.value == doc["token_sequence"].i
    ensures !(doc["token_sequence"].Int? || doc["token_sequence"].Bool?) ==> r.Err?
    ensures r.Err? ==> r.error == InvalidField("token_sequence", doc["token_sequence"])
  {
    var v := doc["token_sequence"];
    if !IsIntegral(v) then Err(InvalidField("token_sequence", v))
    else match AsUInt(v)
      case None => Err(InvalidField("token_sequence", v))
      case Some(n) => Ok(n)
  }

  /**
   * Lines up the mandatory checks as the loader runs them: presence of all
   * four members first, then key type, keys, sequence and revoked flag.
   */
  function ReadMandatory(env: Env, doc: Document): (r: Result<Mandatory, Error>)
    ensures FirstMissing(doc, RequiredFields).Some? ==> r == Err(MissingField(FirstMissing(doc, RequiredFields).value))
    ensures FirstMissing(doc, RequiredFields).None? <==> HasRequired(doc)
    ensures HasRequired(doc) && ReadKeyType(doc).Err? ==> r == Err(ReadKeyType(doc).error)
    ensures HasRequired(doc) && ReadKeyType(doc).Ok? && ReadKeys(env, doc).Err? ==> r == Err(ReadKeys(env, doc).error)
    ensures HasRequired(doc) && ReadKeyType(doc).Ok? && ReadKeys(env, doc).Ok? && ReadSequence(doc).Err? ==>
              r == Err(ReadSequence(doc).error)
    ensures HasRequired(doc) && ReadKeyType(doc).Ok? && ReadKeys(env, doc).Ok? && ReadSequence(doc).Ok? ==>
              r == (if doc["revoked"].Bool? then Ok(Mandatory(ReadKeyType(doc).value, ReadKeys(env, doc).value.0,
                                                             ReadKeys(env, doc).value.1, ReadSequence(doc).value,
                                                             doc["revoked"].b))
                    else Err(InvalidField("revoked", doc["revoked"])))
    ensures r.Ok? ==> && HasRequired(doc)
                      && AsString(doc["key_type"]) == Some(KeyTypeName(r.value.keyType))
                      && (r.value.secret.Some? || r.value.pub.Some?)
                      && (doc["token_sequence"] == Int(r.value.sequence) || doc["token_sequence"] == Bool(r.value.sequence == 1))
                      && doc["revoked"] == Bool(r.value.revoked)
  {
    match FirstMissing(doc, RequiredFields)
    case Some(f) => Err(MissingField(f))
    case None =>
      assert RequiredFields[0] in doc && RequiredFields[1] in doc;
      assert RequiredFields[2] in doc && RequiredFields[3] in doc;
      match ReadKeyType(doc)
      case Err(e) => Err(e)
      case Ok(kt) =>
        match ReadKeys(env, doc)
        case Err(e) => Err(e)
        case Ok(keys) =>
          match ReadSequence(doc)
          case Err(e) => Err(e)
          case Ok(n) =>
            if !doc["revoked"].Bool? then Err(InvalidField("revoked", doc["revoked"]))
            else Ok(Mandatory(kt, keys.0, keys.1, n, doc["revoked"].b))
  }

  /**
   * The debug assertion of the loader, as a precondition: an external key
   * file names the key type of its public key.
   */
  predicate LoadAssertion(env: Env, f: FileInput)
  {
    f.Parsed? ==>
      match ReadMandatory(env, f.doc)
      case Err(_) => true
      case Ok(m) => m.secret.Some? || env.keyTypeOf(m.pub.value) == Some(m.keyType)
  }

  /** The object the mandatory members construct: from the secret when it parsed, else external. */
  function Construct(env: Env, m: Mandatory): (s: State)
    requires m.secret.Some? || m.pub.Some?
    ensures Blank(s) && s.keyType == m.keyType && s.tokenSequence == m.sequence && s.revoked == m.revoked
    ensures s.secretKey == m.secret
    ensures m.secret.Some? ==> s.publicKey == env.derive(m.keyType, m.secret.value)
    ensures m.secret.None? ==> s.publicKey == m.pub.value
  {
    if m.secret.Some? then FromSecret(env, m.keyType, m.secret.value, m.sequence, m.revoked)
    else FromPublic(m.keyType, m.pub.value, m.sequence, m.revoked)
  }

  /** The optional "domain": a string that `domain()` accepts. */
  function ApplyDomain(doc: Document, s: State): (r: Result<State, Error>)
    ensures "domain" !in doc ==> r == Ok(s)
    ensures "domain" in doc && !doc["domain"].Str? ==> r == Err(InvalidField("domain", doc["domain"]))
    ensures "domain" in doc && doc["domain"].Str? ==>
              && (r.Ok? <==> Domain.ValidateDomain(doc["domain"].s).None?)
              && (r.Ok? ==> r.value == s.(domain := doc["domain"].s))
              && (Domain.ValidateDomain(doc["domain"].s) == Some(Domain.BadLength) ==> r == Err(DomainLength))
              && (Domain.ValidateDomain(doc["domain"].s) == Some(Domain.BadFormat) ==> r == Err(DomainFormat))
  {
    if "domain" !in doc then Ok(s)
    else if !doc["domain"].Str? then Err(InvalidField("domain", doc["domain"]))
    else
      var c := SetDomain(s, doc["domain"].s);
      if c.out.Err? then Err(c.out.error) else Ok(c.post)
  }

  /** The optional "manifest": non-empty hex, stored as it is, without verification. */
  function ApplyManifest(env: Env, doc: Document, s: State): (r: Result<State, Error>)
    ensures "manifest" !in doc ==> r == Ok(s)
    ensures "manifest" in doc ==>
              && (r.Ok? <==> doc["manifest"].Str? && env.unhex(doc["manifest"].s).Some? && |env.unhex(doc["manifest"].s).value| > 0)
              && (r.Ok? ==> r.value == s.(manifest := env.unhex(doc["manifest"].s).value))
              && (r.Err? ==> r.error == InvalidField("manifest", doc["manifest"]))
  {
    if "manifest" !in doc then Ok(s)
    else if !doc["manifest"].Str? then Err(InvalidField("manifest", doc["manifest"]))
    else match env.unhex(doc["manifest"].s)
      case None => Err(InvalidField("manifest", doc["manifest"]))
      case Some(b) =>
        if |b| == 0 then Err(InvalidField("manifest", doc["manifest"]))
        else Ok(s.(manifest := b))
  }

  /**
   * The optional "pending_token_secret". When the text does not parse,
   * the error quotes the member "pending_manifest" (null, as no key file
   * has it) instead of the offending value.
   */
  function ApplyPendingSecret(env: Env, doc: Document, s: State): (r: Result<State, Error>)
    ensures "pending_token_secret" !in doc ==> r == Ok(s)
    ensures "pending_token_secret" in doc ==>
              && (r.Ok? <==> doc["pending_token_secret"].Str? && env.parseSecret(doc["pending_token_secret"].s).Some?)
              && (r.Ok? ==> r.value == s.(pendingTokenSecret := env.parseSecret(doc["pending_token_secret"].s)))
              && (r.Err? && doc["pending_token_secret"].Str? ==>
                    r.error == InvalidField("pending_token_secret", Get(doc, "pending_manifest")))
              && (!doc["pending_token_secret"].Str? ==> r == Err(InvalidField("pending_token_secret", doc["pending_token_secret"])))
  {
    if "pending_token_secret" !in doc then Ok(s)
    else
      var v := doc["pending_token_secret"];
      if !v.Str? then Err(InvalidField("pending_token_secret", v))
      else match env.parseSecret(v.s)
        case None => Err(InvalidField("pending_token_secret", Get(doc, "pending_manifest")))
        case Some(sk) => Ok(s.(pendingTokenSecret := Some(sk)))
  }

  /**
   * The optional "pending_key_type". The value is converted to text
   * without checking that it is a string, and a bad value is reported by
   * quoting "key_type" instead.
   */
  function ApplyPendingKeyType(doc: Document, s: State): (r: Result<State, Error>)
    ensures "pending_key_type" !in doc ==> r == Ok(s)
    ensures "pending_key_type" in doc ==>
              && (r.Ok? <==> AsString(doc["pending_key_type"]).Some?
                             && KeyTypeFromString(AsString(doc["pending_key_type"]).value).Some?)
              && (r.Ok? ==> r.value == s.(pendingKeyType := KeyTypeFromString(AsString(doc["pending_key_type"]).value)))
              && (r.Err? && AsString(doc["pending_key_type"]).Some? ==>
                    r.error == InvalidField("pending_key_type", Get(doc, "key_type")))
              && (AsString(doc["pending_key_type"]).None? ==> r == Err(NotConvertible))
  {
    if "pending_key_type" !in doc then Ok(s)
    else match AsString(doc["pending_key_type"])
      case None => Err(NotConvertible)
      case Some(text) =>
        match KeyTypeFromString(text)
        case None => Err(InvalidField("pending_key_type", Get(doc, "key_type")))
        case Some(kt) => Ok(s.(pendingKeyType := Some(kt)))
  }

  /** Every optional member the document has is one the loader accepts. */
  predicate OptionalMembersValid(env: Env, doc: Document)
  {
    && ("domain" in doc ==> doc["domain"].Str? && Domain.ValidateDomain(doc["domain"].s).None?)
    && ("manifest" in doc ==> && doc["manifest"].Str? && env.unhex(doc["manifest"].s).Some?
                              && |env.unhex(doc["manifest"].s).value| > 0)
    && ("pending_token_secret" in doc ==>
          doc["pending_token_secret"].Str? && env.parseSecret(doc["pending_token_secret"].s).Some?)
    && ("pending_key_type" in doc ==>
          AsString(doc["pending_key_type"]).Some? && KeyTypeFromString(AsString(doc["pending_key_type"]).value).Some?)
  }

  /**
   * The error of the first optional member the loader rejects, checked in
   * file order: domain, manifest, pending secret, pending key type. A bad
   * pending secret quotes "pending_manifest" and a bad pending key type
   * quotes "key_type" instead of the offending member.
   */
  function OptionalError(env: Env, doc: Document): (e: Option<Error>)
    ensures e.None? <==> OptionalMembersValid(env, doc)
  {
    if "domain" in doc && !doc["domain"].Str? then Some(InvalidField("domain", doc["domain"]))
    else if "domain" in doc && Domain.ValidateDomain(doc["domain"].s) == Some(Domain.BadLength) then Some(DomainLength)
    else if "domain" in doc && Domain.ValidateDomain(doc["domain"].s) == Some(Domain.BadFormat) then Some(DomainFormat)
    else if "manifest" in doc && !(&& doc["manifest"].Str? && env.unhex(doc["manifest"].s).Some?
                                   && |env.unhex(doc["manifest"].s).value| > 0) then
      Some(InvalidField("manifest", doc["manifest"]))
    else if "pending_token_secret" in doc && !doc["pending_token_secret"].Str? then
      Some(InvalidField("pending_token_secret", doc["pending_token_secret"]))
    else if "pending_token_secret" in doc && env.parseSecret(doc["pending_token_secret"].s).None? then
      Some(InvalidField("pending_token_secret", Get(doc, "pending_manifest")))
    else if "pending_key_type" in doc && AsString(doc["pending_key_type"]).None? then Some(NotConvertible)
    else if "pending_key_type" in doc && KeyTypeFromString(AsString(doc["pending_key_type"]).value).None? then
      Some(InvalidField("pending_key_type", Get(doc, "key_type")))
    else None
  }

  /**
   * `s` holds what the document says: keys, sequence and revoked flag from
   * the mandatory members, and each optional member's value, or the empty
   * default when the member is absent.
   */
  predicate LoadedFrom(env: Env, doc: Document, m: Mandatory, s: State)
    requires OptionalMembersValid(env, doc)
  {
    && s.keyType == m.keyType && s.tokenSequence == m.sequence && s.revoked == m.revoked
    && s.secretKey == m.secret
    && (m.secret.Some? ==> s.publicKey == env.derive(m.keyType, m.secret.value))
    && (m.secret.None? ==> Some(s.publicKey) == m.pub)
    && s.domain == (if "domain" in doc then doc["domain"].s else "")
    && s.manifest == (if "manifest" in doc then env.unhex(doc["manifest"].s).value else [])
    && s.pendingTokenSecret == (if "pending_token_secret" in doc then env.parseSecret(doc["pending_token_secret"].s) else None)
    && s.pendingKeyType ==
         (if "pending_key_type" in doc then KeyTypeFromString(AsString(doc["pending_key_type"]).value) else None)
  }

  /**
   * `make_ValidatorKeys`: the mandatory members construct the object; the
   * optional members are then applied in file order, each independently.
   */
  function Load(env: Env, f: FileInput): (r: Result<State, Error>)
    requires LoadAssertion(env, f)
    ensures f.Unreadable? ==> r == Err(OpenFailed)
    ensures f.Unparseable? ==> r == Err(ParseFailed)
    ensures f.Parsed? && ReadMandatory(env, f.doc).Err? ==> r == Err(ReadMandatory(env, f.doc).error)
    ensures f.Parsed? ==> (r.Ok? <==> ReadMandatory(env, f.doc).Ok? && OptionalMembersValid(env, f.doc))
    ensures f.Parsed? && ReadMandatory(env, f.doc).Ok? && OptionalError(env, f.doc).Some? ==>
              r == Err(OptionalError(env, f.doc).value)
    ensures f.Parsed? && r.Ok? ==>
              && ReadMandatory(env, f.doc).Ok? && HasRequired(f.doc) && OptionalMembersValid(env, f.doc)
              && LoadedFrom(env, f.doc, ReadMandatory(env, f.doc).value, r.value)
  {
    match f
    case Unreadable => Err(OpenFailed)
    case Unparseable => Err(ParseFailed)
    case Parsed(doc) =>
      match ReadMandatory(env, doc)
      case Err(e) => Err(e)
      case Ok(m) => ApplyOptional(env, doc, Construct(env, m))
  }

  /**
   * The optional members, applied in file order to the constructed object;
   * the first that fails stops the load with its error, and each that
   * passes sets its own field and nothing else.
   */
  function ApplyOptional(env: Env, doc: Document, s: State): (r: Result<State, Error>)
    ensures r.Ok? <==> OptionalMembersValid(env, doc)
    ensures OptionalError(env, doc).Some? ==> r == Err(OptionalError(env, doc).value)
    ensures r.Ok? ==>
              r.value == s.(domain := if "domain" in doc then doc["domain"].s else s.domain,
                            manifest := if "manifest" in doc then env.unhex(doc["manifest"].s).value else s.manifest,
                            pendingTokenSecret := if "pending_token_secret" in doc
                                                  then env.parseSecret(doc["pending_token_secret"].s)
                                                  else s.pendingTokenSecret,
                            pendingKeyType := if "pending_key_type" in doc
                                              then KeyTypeFromString(AsString(doc["pending_key_type"]).value)
                                              else s.pendingKeyType)
  {
    match ApplyDomain(doc, s)
    case Err(e) => Err(e)
    case Ok(s1) =>
      match ApplyManifest(env, doc, s1)
      case Err(e) => Err(e)
      case Ok(s2) =>
        match ApplyPendingSecret(env, doc, s2)
        case Err(e) => Err(e)
        case Ok(s3) => ApplyPendingKeyType(doc, s3)
  }

  /**
   * `writeToFile`, without the file system: the five mandatory members,
   * the domain and manifest when non-empty, each pending member when set.
   */
  function Write(env: Env, s: State): (doc: Document)
    ensures HasRequired(doc) && "public_key" in doc && doc["public_key"] == Str(env.publicText(s.publicKey))
    ensures doc["key_type"] == Str(KeyTypeName(s.keyType))
    ensures doc["secret_key"] == Str(if s.secretKey.Some? then env.secretText(s.secretKey.value) else "external")
    ensures doc["token_sequence"] == Int(s.tokenSequence) && doc["revoked"] == Bool(s.revoked)
    ensures doc.Keys <= FieldNames
  {
    map k | k in FieldNames && WrittenField(env, s, k).Some? :: WrittenField(env, s, k).value
  }

  /** Every member a key file written by the tool can hold. */
  const FieldNames: set<string> := {"key_type", "public_key", "secret_key", "token_sequence", "revoked",
                                    "domain", "manifest", "pending_token_secret", "pending_key_type"}

  /** The members `writeToFile` writes only when they are set. */
  const OptionalFields: set<string> := {"domain", "manifest", "pending_token_secret", "pending_key_type"}

  /** The value `writeToFile` gives member `k`, if it writes that member at all. */
  function WrittenField(env: Env, s: State, k: string): Option<Json>
  {
    if k == "key_type" then Some(Str(KeyTypeName(s.keyType)))
    else if k == "public_key" then Some(Str(env.publicText(s.publicKey)))
    else if k == "secret_key" then Some(Str(if s.secretKey.Some? then env.secretText(s.secretKey.value) else "external"))
    else if k == "token_sequence" then Some(Int(s.tokenSequence))
    else if k == "revoked" then Some(Bool(s.revoked))
    else if k == "domain" then (if s.domain != "" then Some(Str(s.domain)) else None)
    else if k == "manifest" then (if s.manifest != [] then Some(Str(env.hex(s.manifest))) else None)
    else if k == "pending_token_secret" then
      (if s.pendingTokenSecret.Some? then Some(Str(env.secretText(s.pendingTokenSecret.value))) else None)
    else if k == "pending_key_type" then
      (if s.pendingKeyType.Some? then Some(Str(KeyTypeName(s.pendingKeyType.value))) else None)
    else None
  }

  /**
   * The optional members of a written key file: domain and manifest only
   * when non-empty, each pending member only when set, and never the
   * "pending_manifest" member the loader quotes.
   */
  lemma WriteOptionalFields(env: Env, s: State)
    ensures var doc := Write(env, s);
            && ("domain" in doc <==> s.domain != "") && ("domain" in doc ==> doc["domain"] == Str(s.domain))
            && ("manifest" in doc <==> s.manifest != []) && ("manifest" in doc ==> doc["manifest"] == Str(env.hex(s.manifest)))
            && ("pending_token_secret" in doc <==> s.pendingTokenSecret.Some?)
            && ("pending_token_secret" in doc ==> doc["pending_token_secret"] == Str(env.secretText(s.pendingTokenSecret.value)))
            && ("pending_key_type" in doc <==> s.pendingKeyType.Some?)
            && ("pending_key_type" in doc ==> doc["pending_key_type"] == Str(KeyTypeName(s.pendingKeyType.value)))
            && "pending_manifest" !in doc
  {
  }

  /** The mandatory members a written key file holds, as the loader reads them back. */
  function WrittenMandatory(s: State): Mandatory
  {
    Mandatory(s.keyType, s.secretKey, if s.secretKey.Some? then None else Some(s.publicKey),
              s.tokenSequence, s.revoked)
  }

  /** The mandatory members of a written key file read back as they were written. */
  lemma WriteReadsMandatory(env: Env, s: State)
    requires Sound(env)
    ensures ReadMandatory(env, Write(env, s)) == Ok(WrittenMandatory(s))
  {
    var doc := Write(env, s);
    KeyTypeNameRoundTrip(s.keyType);
    assert FirstMissing(doc, RequiredFields).None?;
    assert ReadKeyType(doc) == Ok(s.keyType);
    assert env.parsePublic(env.publicText(s.publicKey)) == Some(s.publicKey);
    if s.secretKey.Some? {
      assert env.parseSecret(env.secretText(s.secretKey.value)) == Some(s.secretKey.value);
    }
    assert ReadKeys(env, doc) == Ok((WrittenMandatory(s).secret, WrittenMandatory(s).pub));
  }

  /** Every optional member of a written key file is one the loader accepts. */
  lemma WrittenOptionalValid(env: Env, s: State)
    requires Sound(env)
    requires Domain.ValidateDomain(s.domain).None?
    ensures OptionalMembersValid(env, Write(env, s))
  {
    WriteOptionalFields(env, s);
    if s.manifest != [] {
      assert env.unhex(env.hex(s.manifest)) == Some(s.manifest);
    }
    if s.pendingTokenSecret.Some? {
      assert env.parseSecret(env.secretText(s.pendingTokenSecret.value)) == s.pendingTokenSecret;
    }
    if s.pendingKeyType.Some? {
      KeyTypeNameRoundTrip(s.pendingKeyType.value);
    }
  }

  /** A well-formed state holds exactly what its own key file says. */
  lemma WrittenLoadedFrom(env: Env, s: State)
    requires Sound(env) && WellFormed(env, s)
    ensures OptionalMembersValid(env, Write(env, s))
    ensures LoadedFrom(env, Write(env, s), WrittenMandatory(s), s)
  {
    WrittenOptionalValid(env, s);
    WriteOptionalFields(env, s);
    if s.pendingKeyType.Some? {
      KeyTypeNameRoundTrip(s.pendingKeyType.value);
    }
  }

  /** What a document says pins down every field of the state. */
  lemma LoadedFromUnique(env: Env, doc: Document, m: Mandatory, a: State, b: State)
    requires OptionalMembersValid(env, doc)
    requires LoadedFrom(env, doc, m, a) && LoadedFrom(env, doc, m, b)
    ensures a == b
  {
  }

  /**
   * Loading what `writeToFile` wrote gives back the same object, in every
   * field and not only under `operator==`; the stored manifest comes back
   * whether or not it verifies.
   */
  lemma WriteLoadRoundTrip(env: Env, s: State)
    requires Sound(env)
    requires WellFormed(env, s)
    ensures LoadAssertion(env, Parsed(Write(env, s)))
    ensures Load(env, Parsed(Write(env, s))) == Ok(s)
    ensures Equal(s, Load(env, Parsed(Write(env, s))).value)
  {
    WriteReadsMandatory(env, s);
    WrittenLoadedFrom(env, s);
    var r := Load(env, Parsed(Write(env, s)));
    LoadedFromUnique(env, Write(env, s), WrittenMandatory(s), r.value, s);
  }

  /** Whatever loads is well formed: the loader establishes what the round trip needs. */
  lemma LoadedIsWellFormed(env: Env, f: FileInput)
    requires LoadAssertion(env, f)
    requires Load(env, f).Ok?
    ensures WellFormed(env, Load(env, f).value)
  {
    var doc := f.doc;
    var m := ReadMandatory(env, doc).value;
    var s0 := Construct(env, m);
    var s1 := ApplyDomain(doc, s0).value;
    assert Domain.ValidateDomain(s1.domain).None?;
    var s2 := ApplyManifest(env, doc, s1).value;
    var s3 := ApplyPendingSecret(env, doc, s2).value;
    assert Load(env, f) == ApplyPendingKeyType(doc, s3);
  }

  /** "token_sequence" must fit a `std::uint32_t`: -1 is rejected with the field's own message. */
  lemma NegativeSequenceRejected(env: Env, s: State)
    requires Sound(env) && WellFormed(env, s)
    ensures var doc := Write(env, s)["token_sequence" := Int(-1)];
            LoadAssertion(env, Parsed(doc)) && Load(env, Parsed(doc)) == Err(InvalidField("token_sequence", Int(-1)))
  {
    var doc := Write(env, s)["token_sequence" := Int(-1)];
    KeyTypeNameRoundTrip(s.keyType);
    assert HasRequired(doc);
    assert FirstMissing(doc, RequiredFields).None?;
    assert ReadKeyType(doc).Ok?;
    if s.secretKey.Some? {
      assert env.parseSecret(env.secretText(s.secretKey.value)) == Some(s.secretKey.value);
    } else {
      assert env.parsePublic(env.publicText(s.publicKey)) == Some(s.publicKey);
    }
    assert ReadKeys(env, doc).Ok?;
    assert ReadSequence(doc) == Err(InvalidField("token_sequence", Int(-1)));
  }

  /**
   * A hand-edited "token_sequence" of `true` passes the integral check and
   * loads at sequence 1, everything else as written.
   */
  lemma BooleanSequenceLoads(env: Env, s: State)
    requires Sound(env) && WellFormed(env, s)
    ensures var doc := Write(env, s)["token_sequence" := Bool(true)];
            LoadAssertion(env, Parsed(doc)) && Load(env, Parsed(doc)) == Ok(s.(tokenSequence := 1))
  {
    var doc := Write(env, s)["token_sequence" := Bool(true)];
    var t := s.(tokenSequence := 1);
    BooleanSequenceReadsMandatory(env, s);
    BooleanSequenceLoadedFrom(env, s);
    var r := Load(env, Parsed(doc));
    LoadedFromUnique(env, doc, WrittenMandatory(t), r.value, t);
  }

  /** Its optional members are those of the unedited file, so they describe the state at sequence 1. */
  lemma BooleanSequenceLoadedFrom(env: Env, s: State)
    requires Sound(env) && WellFormed(env, s)
    ensures OptionalMembersValid(env, Write(env, s)["token_sequence" := Bool(true)])
    ensures LoadedFrom(env, Write(env, s)["token_sequence" := Bool(true)],
                       WrittenMandatory(s.(tokenSequence := 1)), s.(tokenSequence := 1))
  {
    var w := Write(env, s);
    var doc := w["token_sequence" := Bool(true)];
    WrittenLoadedFrom(env, s);
    forall k | k in OptionalFields
      ensures (k in doc <==> k in w) && (k in w ==> doc[k] == w[k])
    {
    }
  }

  /** The mandatory members of that file read back with sequence 1. */
  lemma BooleanSequenceReadsMandatory(env: Env, s: State)
    requires Sound(env)
    ensures ReadMandatory(env, Write(env, s)["token_sequence" := Bool(true)])
            == Ok(WrittenMandatory(s.(tokenSequence := 1)))
  {
    var doc := Write(env, s)["token_sequence" := Bool(true)];
    KeyTypeNameRoundTrip(s.keyType);
    assert FirstMissing(doc, RequiredFields).None?;
    assert ReadKeyType(doc) == Ok(s.keyType);
    if s.secretKey.Some? {
      assert env.parseSecret(env.secretText(s.secretKey.value)) == Some(s.secretKey.value);
    } else {
      assert env.parsePublic(env.publicText(s.publicKey)) == Some(s.publicKey);
    }
    assert ReadKeys(env, doc) == Ok((WrittenMandatory(s).secret, WrittenMandatory(s).pub));
  }

  /** The top value 2^32-1 is a valid "token_sequence". */
  lemma TopSequenceLoads(env: Env, s: State)
    requires Sound(env) && WellFormed(env, s) && s.tokenSequence == UINT32_MAX
    ensures var doc := Write(env, s);
            doc["token_sequence"] == Int(0xFFFF_FFFF) && LoadAssertion(env, Parsed(doc)) && Load(env, Parsed(doc)) == Ok(s)
  {
    WriteLoadRoundTrip(env, s);
  }
}
