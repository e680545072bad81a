/**
 * Symbolic ciphers of packages/credentials-crypto. A key is the serial number of the
 * draw that produced it, so two draws never give the same key. A sealed value opens
 * exactly under the key and the associated-data bytes it was sealed with; an age
 * wrap opens exactly with the identity it was addressed to. The bytes are real.
 */
module Crypto {
  import opened Wrappers
  import opened Utf8
  import opened Aad

  const DEK_DOMAIN := "better-update/dek"
  const CREDENTIAL_DOMAIN := "better-update/credential"

  type Key = nat
  type Identity = nat

  datatype PublicKey = PublicKey(owner: Identity)

  datatype AgeBlob = AgeBlob(recipient: PublicKey, vaultKey: Key)

  function WrapVaultKey(vaultKey: Key, recipient: PublicKey): AgeBlob {
    AgeBlob(recipient, vaultKey)
  }

  function UnwrapVaultKey(wrapped: AgeBlob, privateKey: Identity): Option<Key> {
    if wrapped.recipient == PublicKey(privateKey) then Some(wrapped.vaultKey) else None
  }

  /** A wrap opens with the identity it was made for, and no other. */
  lemma WrapOpensExactly(vaultKey: Key, owner: Identity, opener: Identity)
    ensures UnwrapVaultKey(WrapVaultKey(vaultKey, PublicKey(owner)), opener)
         == if opener == owner then Some(vaultKey) else None
  {
  }

  /**
   * What a sealed value is bound to: a DEK wrap to one (org, credential) under one
   * vault version, a credential blob to its identity, which leaves the version out.
   */
  datatype Binding =
    | DekBinding(orgId: string, credentialId: string, vaultVersion: nat)
    | CredentialBinding(orgId: string, credentialId: string, credentialType: string, schemaVersion: nat)
  {
    function Domain(): string {
      if DekBinding? then DEK_DOMAIN else CREDENTIAL_DOMAIN
    }

    function Parts(): seq<Part> {
      match this
      case DekBinding(org, id, version) => [Text(org), Text(id), Number(version)]
      case CredentialBinding(org, id, kind, schema) => [Text(org), Text(id), Text(kind), Number(schema)]
    }

    /** The associated data, as bytes. */
    function Bytes(): seq<byte> {
      Framed(Domain(), Parts())
    }

    ghost predicate Fits() {
      Framable([Domain()] + Texts(Parts()))
    }
  }

  /** A sealed value remembers the key and binding it was sealed with. */
  datatype Aead<P> = Aead(key: Key, plain: P, binding: Binding)

  function AeadEncrypt<P>(key: Key, plain: P, binding: Binding): Aead<P> {
    Aead(key, plain, binding)
  }

  /** Opening compares keys and the bytes of the two bindings. */
  function AeadDecrypt<P>(key: Key, blob: Aead<P>, binding: Binding): Option<P> {
    if blob.key == key && blob.binding.Bytes() == binding.Bytes() then Some(blob.plain) else None
  }

  function WrapDek(dek: Key, vaultKey: Key, binding: Binding): Aead<Key> {
    AeadEncrypt(vaultKey, dek, binding)
  }

  function UnwrapDek(wrapped: Aead<Key>, vaultKey: Key, binding: Binding): Option<Key> {
    AeadDecrypt(vaultKey, wrapped, binding)
  }

  /** The bytes a binding stands for: its domain, then the organization, the credential, and the rest. */
  lemma BoundBytes(orgId: string, id: string, kind: string, version: nat)
    ensures Reads(DekBinding(orgId, id, version).Bytes(), 0,
      [Text("better-update/dek"), Text(orgId), Text(id), Number(version)])
    ensures Reads(CredentialBinding(orgId, id, kind, version).Bytes(), 0,
      [Text("better-update/credential"), Text(orgId), Text(id), Text(kind), Number(version)])
  {
    hide Reads, Framed;
    var wrap, blob := DekBinding(orgId, id, version), CredentialBinding(orgId, id, kind, version);
    FramedReads(wrap.Domain(), wrap.Parts());
    FramedReads(blob.Domain(), blob.Parts());
    assert [Text(wrap.Domain())] + wrap.Parts()
        == [Text("better-update/dek"), Text(orgId), Text(id), Number(version)];
    assert [Text(blob.Domain())] + blob.Parts()
        == [Text("better-update/credential"), Text(orgId), Text(id), Text(kind), Number(version)];
  }

  /** The domain and the texts give the binding back: a number's digits determine the number. */
  lemma TextsDetermine(b: Binding, c: Binding)
    requires b.Domain() == c.Domain() && Texts(b.Parts()) == Texts(c.Parts())
    ensures b == c
  {
    assert |DEK_DOMAIN| != |CREDENTIAL_DOMAIN|;
    var p, q := b.Parts(), c.Parts();
    SamePart(p, q, 0);
    SamePart(p, q, 1);
    SamePart(p, q, 2);
    if b.DekBinding? {
      Decimal.PrintInjective(b.vaultVersion, c.vaultVersion);
    } else {
      SamePart(p, q, 3);
      Decimal.PrintInjective(b.schemaVersion, c.schemaVersion);
    }
  }

  /** Different bindings have different bytes, across the two domains as well. */
  lemma BytesInjective(b: Binding, c: Binding)
    requires b.Fits() && c.Fits()
    requires b.Bytes() == c.Bytes()
    ensures b == c
  {
    FramedInjective(b.Domain(), b.Parts(), c.Domain(), c.Parts());
    TextsDetermine(b, c);
  }

  /** Of two wraps of one credential at one version the bytes tell the organizations apart, however long their ids. */
  lemma OrgShows(orgId: string, other: string, id: string, version: nat)
    ensures DekBinding(orgId, id, version).Bytes() == DekBinding(other, id, version).Bytes() <==> orgId == other
  {
    var rest := [Text(id), Number(version)];
    assert [Text(orgId)] + rest == DekBinding(orgId, id, version).Parts();
    assert [Text(other)] + rest == DekBinding(other, id, version).Parts();
    FirstPartShows(DEK_DOMAIN, orgId, other, rest);
  }

  /** A sealed value opens exactly under its own key and its own binding. */
  lemma OpensExactly<P>(key: Key, plain: P, b: Binding, otherKey: Key, c: Binding)
    requires b.Fits() && c.Fits()
    ensures AeadDecrypt(otherKey, AeadEncrypt(key, plain, b), c)
         == if key == otherKey && b == c then Some(plain) else None
  {
    if b.Bytes() == c.Bytes() {
      BytesInjective(b, c);
    }
  }
}
