/** What every reachable state of the vault machine satisfies, and what every step only adds to. */
module VaultInvariant {
  import opened Wrappers
  import opened Crypto
  import opened CredentialCipher
  import opened VaultModel

  /** The vault key a command has drawn for a version that is not committed yet. */
  function PendingKey(op: Op): Option<Key> {
    match op
    case RotateListed(_, newKey, _, _) => Some(newKey)
    case RotateSent(r) => Some(r.newKey)
    case RotatePrechecked(r) => Some(r.newKey)
    case RotateCovered(r) => Some(r.newKey)
    case BootMinted(key, _, _, _) => Some(key)
    case BootSent(b) => Some(b.vaultKey)
    case BootChecked(b) => Some(b.vaultKey)
    case _ => None
  }

  /** The credential a command is about to store. */
  function UploadOf(op: Op): Option<CredRef> {
    match op
    case UploadSent(cred, _, _) => Some(cred)
    case UploadChecked(cred, _, _) => Some(cred)
    case _ => None
  }

  function RotationOf(op: Op): Option<Rotation> {
    match op
    case RotateSent(r) => Some(r)
    case RotatePrechecked(r) => Some(r)
    case RotateCovered(r) => Some(r)
    case _ => None
  }

  // ---------------------------------------------------------------- keys

  /** The key history is the vault: its length is the version, its entries were drawn here, once each. */
  ghost predicate HistoryOk(s: State) {
    && s.vault == (if s.history == [] then None else Some(|s.history|))
    && (forall i | 0 <= i < |s.history| :: s.history[i] < s.nextKey && s.history[i] !in s.foreign)
    && (forall i, j | 0 <= i < j < |s.history| :: s.history[i] != s.history[j])
    && (forall k | k in s.foreign :: k < s.nextKey)
  }

  /** A drawn key that no command can still commit: whether it is a key of the history is settled. */
  ghost predicate Settled(s: State, key: Key) {
    key < s.nextKey && forall o | o in s.ops :: PendingKey(s.ops[o].op) != Some(key)
  }

  /** A key nobody holds, here or elsewhere, and nobody can ever commit. */
  ghost predicate Discarded(s: State, key: Key) {
    Settled(s, key) && key !in s.history && key !in s.foreign
  }

  ghost predicate PendingOk(s: State) {
    && (forall o | o in s.ops && PendingKey(s.ops[o].op).Some? ::
          && PendingKey(s.ops[o].op).value < s.nextKey
          && PendingKey(s.ops[o].op).value !in s.history
          && PendingKey(s.ops[o].op).value !in s.foreign)
    && (forall o, p | o in s.ops && p in s.ops && o != p && PendingKey(s.ops[o].op).Some? ::
          PendingKey(s.ops[o].op) != PendingKey(s.ops[p].op))
  }

  /** A held vault key is settled, and the true key of its version exactly when it was fetched here. */
  ghost predicate UnlockedOk(s: State, u: Unlocked) {
    && Settled(s, u.vaultKey)
    && 1 <= u.vaultVersion
    && (u.own <==> TrueKey(s, u.vaultKey, u.vaultVersion))
  }

  ghost predicate CachesOk(s: State) {
    forall d | d in s.caches :: UnlockedOk(s, s.caches[d])
  }

  // ---------------------------------------------------------------- wraps

  predicate OwnKey(s: State, keyId: KeyId) {
    keyId in s.keys && !s.keys[keyId].ForeignOrgKey()
  }

  /**
   * A wrap is at the current version and addressed to a registered, in-org recipient;
   * it holds the current key exactly when no grant put another one there.
   */
  ghost predicate WrapOk(s: State, version: nat, keyId: KeyId, row: WrapRow) {
    && version == |s.history| && s.history != []
    && OwnKey(s, keyId) && row.blob.recipient == s.keys[keyId].publicKey
    && Settled(s, row.blob.vaultKey)
    && (row.own <==> row.blob.vaultKey == s.history[|s.history| - 1])
  }

  ghost predicate WrapsOk(s: State) {
    forall k | k in s.wraps :: WrapOk(s, k.0, k.1, s.wraps[k])
  }

  /** A recovery key holds the current vault key. */
  ghost predicate HoldsRecovery(s: State, keyId: KeyId) {
    && keyId in s.keys && s.keys[keyId].kind.Recovery?
    && (|s.history|, keyId) in s.wraps && s.wraps[(|s.history|, keyId)].own
  }

  ghost predicate RecoveryOk(s: State) {
    s.history != [] ==> exists k :: HoldsRecovery(s, k)
  }

  // ---------------------------------------------------------------- credentials

  ghost predicate UploadsOk(s: State) {
    && (forall o | o in s.ops && UploadOf(s.ops[o].op).Some? :: UploadOf(s.ops[o].op).value !in s.landed)
    && (forall o, p | o in s.ops && p in s.ops && o != p && UploadOf(s.ops[o].op).Some? ::
          UploadOf(s.ops[o].op) != UploadOf(s.ops[p].op))
    && s.creds.Keys <= s.landed <= s.deks.Keys
  }

  /** What a stored envelope is, except for which vault key it is wrapped under. */
  predicate Sealed(s: State, cred: CredRef, e: Envelope) {
    && cred in s.deks
    && e.ciphertext.key == s.deks[cred].dek
    && 1 <= e.vaultVersion
    && SealedFor(s.deks[cred].orgId, cred.credentialType, cred.id, e)
    && e.ciphertext.plain.metadata == JsonTrip(s.deks[cred].metadata)
    && e.ciphertext.plain.secret == JsonTrip(s.deks[cred].secret)
  }

  /** A key of the history is never found under a version before its own, nor after the current one. */
  predicate InRange(s: State, key: Key, version: nat) {
    forall i | 0 <= i < |s.history| && s.history[i] == key :: i < version <= |s.history|
  }

  ghost predicate RowOk(s: State, cred: CredRef, e: Envelope) {
    Sealed(s, cred, e) && Settled(s, e.wrappedDek.key) && InRange(s, e.wrappedDek.key, e.vaultVersion)
  }

  ghost predicate CredsOk(s: State) {
    forall r | r in s.creds :: RowOk(s, r, s.creds[r])
  }

  // ---------------------------------------------------------------- commands

  ghost predicate UploadOk(s: State, cred: CredRef, e: Envelope, own: bool) {
    && Sealed(s, cred, e)
    && Settled(s, e.wrappedDek.key)
    && (own <==> TrueKey(s, e.wrappedDek.key, e.vaultVersion))
  }

  ghost predicate GrantOk(s: State, target: KeyId, version: nat, wrapped: AgeBlob, own: bool) {
    && 1 <= version
    && target in s.keys && wrapped.recipient == s.keys[target].publicKey
    && Settled(s, wrapped.vaultKey)
    && (own <==> TrueKey(s, wrapped.vaultKey, version))
  }

  predicate WrapsFor(s: State, wraps: seq<RecipientWrap>, key: Key) {
    forall w | w in wraps :: w.keyId in s.keys && w.wrapped == WrapVaultKey(key, s.keys[w.keyId].publicKey)
  }

  /** The rules `CheckRotate` and `CheckBootstrap` enforced on a recipient list. */
  ghost predicate RecipientsOk(s: State, wraps: seq<RecipientWrap>) {
    && Distinct(wraps)
    && (forall w | w in wraps :: OwnKey(s, w.keyId))
    && exists w | w in wraps :: w.keyId in s.keys && s.keys[w.keyId].kind.Recovery?
  }

  /** A listed DEK was a good row once, and the row can only have moved to a later version since. */
  ghost predicate ListedOk(s: State, r: CredRef, l: ListedDek) {
    && r in s.landed && r in s.deks
    && 1 <= l.vaultVersion
    && l.wrappedDek.plain == s.deks[r].dek
    && l.wrappedDek.binding == DekBinding(s.deks[r].orgId, r.id, l.vaultVersion)
    && Settled(s, l.wrappedDek.key) && InRange(s, l.wrappedDek.key, l.vaultVersion)
    && (r in s.creds ==>
          || s.creds[r].vaultVersion > l.vaultVersion
          || (s.creds[r].vaultVersion == l.vaultVersion && s.creds[r].wrappedDek == l.wrappedDek))
  }

  /**
   * A re-wrapped DEK is the row's own, bound to the organization the row was bound to all
   * along, under the new key at the next version. If the command worked with a key of this
   * organization, the row was wrapped under that key at that key's version, and is still,
   * unless it has moved past it.
   */
  ghost predicate RewrappedOk(s: State, r: CredRef, rotation: Rotation)
    requires r in rotation.deks
  {
    && r in s.landed && r in s.deks
    && rotation.deks[r]
      == WrapDek(s.deks[r].dek, rotation.newKey, DekBinding(s.deks[r].orgId, r.id, rotation.fromVersion + 1))
    && (rotation.vault.own && r in s.creds ==>
          || s.creds[r].vaultVersion > rotation.fromVersion
          || (s.creds[r].vaultVersion == rotation.fromVersion && s.creds[r].wrappedDek.key == rotation.vault.vaultKey))
  }

  ghost predicate RotationOk(s: State, rotation: Rotation) {
    && UnlockedOk(s, rotation.vault)
    && WrapsFor(s, rotation.wraps, rotation.newKey)
    && forall r | r in rotation.deks :: RewrappedOk(s, r, rotation)
  }

  ghost predicate CheckedOk(s: State, rotation: Rotation) {
    RotationOk(s, rotation) && rotation.fromVersion <= |s.history| && RecipientsOk(s, rotation.wraps)
  }

  ghost predicate OpOk(s: State, op: Op) {
    match op
    case Unlocking(_) => true
    case Fetched(_, vault) => UnlockedOk(s, vault)
    case Ready(_, vault) => UnlockedOk(s, vault)
    case UploadSent(cred, e, own) => UploadOk(s, cred, e, own)
    case UploadChecked(cred, e, own) => UploadOk(s, cred, e, own) && InRange(s, e.wrappedDek.key, e.vaultVersion)
    case GrantSent(target, version, wrapped, own) => GrantOk(s, target, version, wrapped, own)
    case GrantChecked(target, version, wrapped, own) => GrantOk(s, target, version, wrapped, own) && OwnKey(s, target)
    case RotateListed(vault, _, recipients, listed) =>
      && UnlockedOk(s, vault)
      && (forall k | k in recipients :: k in s.keys)
      && forall r | r in listed :: ListedOk(s, r, listed[r])
    case RotateSent(r) => RotationOk(s, r)
    case RotatePrechecked(r) => CheckedOk(s, r)
    case RotateCovered(r) => CheckedOk(s, r)
    case RotateCommitted => true
    case BootMinted(_, keyId, recipient, _) => keyId in s.keys && s.keys[keyId].publicKey == recipient
    case BootSent(b) => WrapsFor(s, b.wraps, b.vaultKey)
    case BootChecked(b) => WrapsFor(s, b.wraps, b.vaultKey) && RecipientsOk(s, b.wraps)
  }

  ghost predicate OpsOk(s: State) {
    forall o | o in s.ops :: OpOk(s, s.ops[o].op)
  }

  ghost predicate Inv(s: State) {
    && HistoryOk(s)
    && WrapsOk(s)
    && RecoveryOk(s)
    && CachesOk(s)
    && PendingOk(s)
    && UploadsOk(s)
    && CredsOk(s)
    && OpsOk(s)
  }

  // ---------------------------------------------------------------- growth

  /** A row changes only by moving to a later version; its ciphertext never changes. */
  ghost predicate RowAdvances(a: Envelope, b: Envelope) {
    b == a || (b.vaultVersion > a.vaultVersion && b.ciphertext == a.ciphertext)
  }

  /** The same key; only its revocation may have changed. */
  predicate SameKey(a: KeyRow, b: KeyRow) {
    a.publicKey == b.publicKey && a.kind == b.kind && a.foreign == b.foreign
  }

  /** What is settled stays so, and no later version gets a key that is settled now. */
  ghost predicate KeysGrow(s: State, t: State) {
    && s.history <= t.history
    && s.nextKey <= t.nextKey
    && s.foreign <= t.foreign
    && (forall k | Settled(s, k) :: Settled(t, k) && (k in t.foreign ==> k in s.foreign))
    && (forall i | |s.history| <= i < |t.history| :: !Settled(s, t.history[i]))
  }

  /** What every step, and so every run, keeps: histories grow, rows advance, nothing comes back. */
  ghost predicate Grows(s: State, t: State) {
    && t.orgId == s.orgId
    && KeysGrow(s, t)
    && (forall k | k in s.keys :: k in t.keys && SameKey(s.keys[k], t.keys[k]))
    && (forall r | r in s.deks :: r in t.deks && t.deks[r] == s.deks[r])
    && s.landed <= t.landed
    && (forall r | r in s.landed && r in t.creds :: r in s.creds && RowAdvances(s.creds[r], t.creds[r]))
  }

  lemma KeysGrowTransitive(s: State, t: State, u: State)
    requires KeysGrow(s, t) && KeysGrow(t, u)
    ensures KeysGrow(s, u)
  {
    forall i | |s.history| <= i < |u.history|
      ensures !Settled(s, u.history[i])
    {
      if i < |t.history| {
        assert u.history[i] == t.history[i];
      }
    }
  }

  lemma GrowsTransitive(s: State, t: State, u: State)
    requires Grows(s, t) && Grows(t, u)
    ensures Grows(s, u)
  {
    KeysGrowTransitive(s, t, u);
  }

  /** Of a settled key it never changes of which version it is the key, nor whether a version fits it. */
  lemma SettledForGood(s: State, t: State, key: Key, version: nat)
    requires KeysGrow(s, t) && Settled(s, key)
    ensures Settled(t, key)
    ensures TrueKey(t, key, version) <==> TrueKey(s, key, version)
    ensures InRange(s, key, version) ==> InRange(t, key, version)
  {
    forall i | 0 <= i < |t.history| && t.history[i] == key
      ensures i < |s.history| && s.history[i] == key
    {
    }
  }

  lemma UnlockedGrows(s: State, t: State, u: Unlocked)
    requires KeysGrow(s, t) && UnlockedOk(s, u)
    ensures UnlockedOk(t, u)
  {
    SettledForGood(s, t, u.vaultKey, u.vaultVersion);
  }

  lemma WrapsForGrows(s: State, t: State, wraps: seq<RecipientWrap>, key: Key)
    requires WrapsFor(s, wraps, key) && Grows(s, t)
    ensures WrapsFor(t, wraps, key)
  {
  }

  lemma RecipientsGrow(s: State, t: State, wraps: seq<RecipientWrap>)
    requires RecipientsOk(s, wraps) && Grows(s, t)
    ensures RecipientsOk(t, wraps)
  {
  }

  lemma ListedGrows(s: State, t: State, r: CredRef, l: ListedDek)
    requires ListedOk(s, r, l) && Grows(s, t)
    ensures ListedOk(t, r, l)
  {
    SettledForGood(s, t, l.wrappedDek.key, l.vaultVersion);
  }

  lemma RewrappedGrows(s: State, t: State, r: CredRef, rotation: Rotation)
    requires r in rotation.deks && RewrappedOk(s, r, rotation) && Grows(s, t)
    ensures RewrappedOk(t, r, rotation)
  {
  }

  lemma RotationGrows(s: State, t: State, rotation: Rotation)
    requires RotationOk(s, rotation) && Grows(s, t)
    ensures RotationOk(t, rotation)
  {
    UnlockedGrows(s, t, rotation.vault);
    WrapsForGrows(s, t, rotation.wraps, rotation.newKey);
    forall r | r in rotation.deks
      ensures RewrappedOk(t, r, rotation)
    {
      RewrappedGrows(s, t, r, rotation);
    }
  }

  lemma CheckedGrows(s: State, t: State, rotation: Rotation)
    requires CheckedOk(s, rotation) && Grows(s, t)
    ensures CheckedOk(t, rotation)
  {
    RotationGrows(s, t, rotation);
    RecipientsGrow(s, t, rotation.wraps);
  }

  lemma UploadGrows(s: State, t: State, cred: CredRef, e: Envelope, own: bool)
    requires UploadOk(s, cred, e, own) && Grows(s, t)
    ensures UploadOk(t, cred, e, own)
    ensures InRange(s, e.wrappedDek.key, e.vaultVersion) ==> InRange(t, e.wrappedDek.key, e.vaultVersion)
  {
    SettledForGood(s, t, e.wrappedDek.key, e.vaultVersion);
  }

  lemma GrantGrows(s: State, t: State, target: KeyId, version: nat, wrapped: AgeBlob, own: bool)
    requires GrantOk(s, target, version, wrapped, own) && Grows(s, t)
    ensures GrantOk(t, target, version, wrapped, own)
    ensures OwnKey(s, target) ==> OwnKey(t, target)
  {
    SettledForGood(s, t, wrapped.vaultKey, version);
  }

  lemma ListingGrows(s: State, t: State, listed: map<CredRef, ListedDek>)
    requires Grows(s, t) && forall r | r in listed :: ListedOk(s, r, listed[r])
    ensures forall r | r in listed :: ListedOk(t, r, listed[r])
  {
    forall r | r in listed
      ensures ListedOk(t, r, listed[r])
    {
      ListedGrows(s, t, r, listed[r]);
    }
  }

  /** What a command relies on stays true whatever the others do. */
  lemma OpGrows(s: State, t: State, op: Op)
    requires OpOk(s, op) && Grows(s, t)
    ensures OpOk(t, op)
  {
    hide Grows, UnlockedOk, UploadOk, GrantOk, ListedOk, RotationOk, RecipientsOk, WrapsFor, InRange, OwnKey, CheckedOk;
    match op
    case Unlocking(_) =>
    case Fetched(_, vault) => GrowsKeys(s, t); UnlockedGrows(s, t, vault);
    case Ready(_, vault) => GrowsKeys(s, t); UnlockedGrows(s, t, vault);
    case UploadSent(cred, e, own) => UploadGrows(s, t, cred, e, own);
    case UploadChecked(cred, e, own) => UploadGrows(s, t, cred, e, own);
    case GrantSent(target, version, wrapped, own) => GrantGrows(s, t, target, version, wrapped, own);
    case GrantChecked(target, version, wrapped, own) => GrantGrows(s, t, target, version, wrapped, own);
    case RotateListed(vault, _, recipients, listed) =>
      GrowsKeys(s, t);
      UnlockedGrows(s, t, vault);
      ListingGrows(s, t, listed);
    case RotateSent(r) => RotationGrows(s, t, r);
    case RotatePrechecked(r) => CheckedGrows(s, t, r);
    case RotateCovered(r) => CheckedGrows(s, t, r);
    case RotateCommitted =>
    case BootMinted(_, keyId, _, _) => GrowsKeys(s, t);
    case BootSent(b) => WrapsForGrows(s, t, b.wraps, b.vaultKey);
    case BootChecked(b) => WrapsForGrows(s, t, b.wraps, b.vaultKey); RecipientsGrow(s, t, b.wraps);
  }

  lemma GrowsKeys(s: State, t: State)
    requires Grows(s, t)
    ensures KeysGrow(s, t)
    ensures forall k | k in s.keys :: k in t.keys && t.keys[k].publicKey == s.keys[k].publicKey
  {
  }

  lemma RowGrows(s: State, t: State, cred: CredRef, e: Envelope)
    requires RowOk(s, cred, e) && Grows(s, t)
    ensures RowOk(t, cred, e)
  {
    SettledForGood(s, t, e.wrappedDek.key, e.vaultVersion);
  }
}
