/** Client-side sealing and opening of one credential (apps/cli/src/application/credential-cipher.ts). */
module CredentialCipher {
  import opened Wrappers
  import opened Aad
  import opened Crypto

  const SCHEMA_VERSION: nat := 1

  /** A JavaScript value as far as `!==` and `JSON.stringify` tell values apart. */
  datatype Json =
    | Undefined
    | Null
    | Bool(flag: bool)
    | Num(number: real)
    | Str(text: string)
    | Compound(json: string)

  type Record = map<string, Json>

  /** `===` between two separately parsed values: objects and arrays are never identical. */
  predicate StrictEquals(x: Json, y: Json) {
    x == y && !x.Compound?
  }

  /** `JSON.parse(JSON.stringify(r))` drops the members that are `undefined`. */
  function JsonTrip(r: Record): Record {
    map k | k in r && !r[k].Undefined? :: r[k]
  }

  datatype Payload = Payload(
    schemaVersion: nat,
    orgId: string,
    credentialId: string,
    credentialType: string,
    metadata: Record,
    secret: Record) {

    function Identifies(): Binding {
      CredentialBinding(orgId, credentialId, credentialType, schemaVersion)
    }
  }

  datatype Session = Session(orgId: string, vaultKey: Key, vaultVersion: nat)

  datatype Envelope = Envelope(ciphertext: Aead<Payload>, wrappedDek: Aead<Key>, vaultVersion: nat)

  datatype OpenError =
    | UnwrapFailed
    | IntegrityFailed
    | InconsistentMetadata

  function SealCredential(dek: Key, payload: Payload): Aead<Payload> {
    var plain := payload.(metadata := JsonTrip(payload.metadata), secret := JsonTrip(payload.secret));
    AeadEncrypt(dek, plain, payload.Identifies())
  }

  function OpenCredential(dek: Key, ciphertext: Aead<Payload>, expected: Binding): Option<Payload> {
    AeadDecrypt(dek, ciphertext, expected)
  }

  /** `id` and `dek` are the fresh UUID and the fresh data key the seal draws. */
  function SealForUpload(s: Session, id: string, dek: Key, credentialType: string, metadata: Record,
      secret: Record): Envelope {
    var payload := Payload(SCHEMA_VERSION, s.orgId, id, credentialType, metadata, secret);
    Envelope(
      SealCredential(dek, payload),
      WrapDek(dek, s.vaultKey, DekBinding(s.orgId, id, s.vaultVersion)),
      s.vaultVersion)
  }

  /** Nullish server values and keys the sealed copy lacks are skipped; anything else must be identical. */
  predicate MetadataConsistent(secured: Record, server: Record) {
    forall k | k in server && !server[k].Null? && !server[k].Undefined? && k in secured ::
      StrictEquals(secured[k], server[k])
  }

  function OpenEnvelope(s: Session, credentialType: string, id: string, e: Envelope,
      server: Record): Result<Record, OpenError> {
    match UnwrapDek(e.wrappedDek, s.vaultKey, DekBinding(s.orgId, id, e.vaultVersion))
    case None => Err(UnwrapFailed)
    case Some(dek) =>
      match OpenCredential(dek, e.ciphertext, CredentialBinding(s.orgId, id, credentialType, SCHEMA_VERSION))
      case None => Err(IntegrityFailed)
      case Some(payload) =>
        if MetadataConsistent(payload.metadata, server) then Ok(payload.secret) else Err(InconsistentMetadata)
  }

  // ---------------------------------------------------------------- what the two checks say of values

  /** A key of both records has another value at the server than was sealed; an object or array always does. */
  ghost predicate Disagrees(metadata: Record, server: Record, k: string) {
    && k in metadata && k in server
    && server[k] != Null && server[k] != Undefined && metadata[k] != Undefined
    && (metadata[k] != server[k] || metadata[k].Compound?)
  }

  /** What comes out of JSON is what went in, without the members that are `undefined`. */
  ghost predicate Survives(sealed: Record, back: Record) {
    && (forall k :: k in back <==> k in sealed && sealed[k] != Undefined)
    && (forall k | k in back :: back[k] == sealed[k])
  }

  /** An open that unwraps gives the secret, unless a value of the server disagrees with the sealed metadata. */
  ghost predicate Gives(r: Result<Record, OpenError>, metadata: Record, secret: Record, server: Record) {
    match r
    case Ok(back) => Survives(secret, back) && forall k :: !Disagrees(metadata, server, k)
    case Err(error) => error == InconsistentMetadata && exists k :: Disagrees(metadata, server, k)
  }

  lemma ConsistentMeans(metadata: Record, server: Record)
    ensures MetadataConsistent(JsonTrip(metadata), server) <==> forall k :: !Disagrees(metadata, server, k)
  {
    if k :| Disagrees(metadata, server, k) {
      assert k in JsonTrip(metadata) && !StrictEquals(JsonTrip(metadata)[k], server[k]);
    }
    if !MetadataConsistent(JsonTrip(metadata), server) {
      var k :| k in server && !server[k].Null? && !server[k].Undefined? && k in JsonTrip(metadata)
            && !StrictEquals(JsonTrip(metadata)[k], server[k]);
      assert Disagrees(metadata, server, k);
    }
  }

  lemma TripSurvives(sealed: Record)
    ensures Survives(sealed, JsonTrip(sealed))
  {
  }

  /** The strings of a seal or an open fit the four-byte lengths of the framing. */
  ghost predicate Bindable(orgId: string, id: string, credentialType: string, version: nat) {
    && DekBinding(orgId, id, version).Fits()
    && CredentialBinding(orgId, id, credentialType, SCHEMA_VERSION).Fits()
  }

  /**
   * Sealing then opening, with everything the opener supplies left free: the outcomes
   * are told apart exactly by what differs, and the secret comes back exactly when
   * nothing does. The opener's own `vaultVersion` plays no part; the
   * version stored beside the envelope does.
   */
  lemma SealThenOpen(
    s: Session, id: string, dek: Key, credentialType: string, metadata: Record, secret: Record,
    s': Session, type': string, id': string, version': nat, server: Record)
    requires Bindable(s.orgId, id, credentialType, s.vaultVersion)
    requires Bindable(s'.orgId, id', type', version')
    ensures
      var e := SealForUpload(s, id, dek, credentialType, metadata, secret);
      var r := OpenEnvelope(s', type', id', e.(vaultVersion := version'), server);
      var sameWrap := s'.vaultKey == s.vaultKey && s'.orgId == s.orgId && id' == id && version' == s.vaultVersion;
      && (r == Err(UnwrapFailed) <==> !sameWrap)
      && (r == Err(IntegrityFailed) <==> sameWrap && type' != credentialType)
      && (Gives(r, metadata, secret, server) <==> sameWrap && type' == credentialType)
  {
    hide Binding.Bytes, Binding.Fits, MetadataConsistent, Disagrees, Survives;
    ConsistentMeans(metadata, server);
    TripSurvives(secret);
    OpensExactly(
      s.vaultKey, dek, DekBinding(s.orgId, id, s.vaultVersion), s'.vaultKey, DekBinding(s'.orgId, id', version'));
    var payload := Payload(SCHEMA_VERSION, s.orgId, id, credentialType, metadata, secret);
    OpensExactly(dek, SealCredential(dek, payload).plain, payload.Identifies(), dek,
      CredentialBinding(s'.orgId, id', type', SCHEMA_VERSION));
  }

  /** The bytes a seal binds its two ciphertexts to. */
  lemma SealsUnder(
    s: Session, id: string, dek: Key, credentialType: string, metadata: Record, secret: Record)
    ensures
      var e := SealForUpload(s, id, dek, credentialType, metadata, secret);
      && e.vaultVersion == s.vaultVersion && e.wrappedDek.key == s.vaultKey && e.ciphertext.key == dek
      && Reads(e.wrappedDek.binding.Bytes(), 0,
           [Text("better-update/dek"), Text(s.orgId), Text(id), Number(s.vaultVersion)])
      && Reads(e.ciphertext.binding.Bytes(), 0,
           [Text("better-update/credential"), Text(s.orgId), Text(id), Text(credentialType), Number(1)])
  {
    hide Binding.Bytes, Reads, JsonTrip;
    BoundBytes(s.orgId, id, credentialType, s.vaultVersion);
    BoundBytes(s.orgId, id, credentialType, 1);
  }

  /** The envelope was sealed for this org, this id and this type, the wrap at its stored version. */
  predicate SealedFor(orgId: string, credentialType: string, id: string, e: Envelope) {
    && e.wrappedDek.binding == DekBinding(orgId, id, e.vaultVersion)
    && e.ciphertext.binding == CredentialBinding(orgId, id, credentialType, SCHEMA_VERSION)
    && e.wrappedDek.plain == e.ciphertext.key
  }

  /** The secret inside a blob, subject to the metadata check. */
  function Contents(e: Envelope, server: Record): Result<Record, OpenError> {
    var payload := e.ciphertext.plain;
    if MetadataConsistent(payload.metadata, server) then Ok(payload.secret) else Err(InconsistentMetadata)
  }

  /**
   * Of an envelope sealed for this id and type the vault key and the organization decide:
   * the right two give the contents, anything else fails. The session's version is not used.
   */
  lemma OpenByKey(s: Session, orgId: string, credentialType: string, id: string, e: Envelope, server: Record)
    requires SealedFor(orgId, credentialType, id, e)
    ensures OpenEnvelope(s, credentialType, id, e, server)
         == if e.wrappedDek.key == s.vaultKey && s.orgId == orgId then Contents(e, server) else Err(UnwrapFailed)
  {
    OrgShows(orgId, s.orgId, id, e.vaultVersion);
    hide Binding.Bytes;
    assert e.ciphertext.binding.Bytes() == CredentialBinding(orgId, id, credentialType, SCHEMA_VERSION).Bytes();
  }
}
