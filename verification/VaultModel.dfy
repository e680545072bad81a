/**
 * The organization vault as a state machine: the server's tables, every device's
 * cached key, and any number of commands in flight, each a program counter with its
 * locals. One step is one server statement (or one batch, which D1 runs as a single
 * transaction) or one local computation of the CLI, so steps of different commands
 * interleave freely and a command may stop between any two of its steps.
 */
module VaultModel {
  import opened Wrappers
  import opened Crypto
  import opened CredentialCipher

  type KeyId = nat
  type OpId = nat

  datatype KeyKind = Device | Recovery | Machine

  /** `foreign` marks an org-owned key registered under another organization. */
  datatype KeyRow = KeyRow(publicKey: PublicKey, kind: KeyKind, foreign: bool, revoked: bool) {
    predicate ForeignOrgKey() {
      !kind.Device? && foreign
    }
  }

  datatype CredRef = CredRef(credentialType: string, id: string)

  /**
   * A vault key as `unlockVaultKey` returns it. `own` is bookkeeping no program reads: the
   * key was read off a wrap of this organization that holds its key. For a key that comes
   * from another organization the mark is by definition whether it is, by chance, this
   * organization's key of that very version.
   */
  datatype Unlocked = Unlocked(vaultKey: Key, vaultVersion: nat, own: bool)

  datatype Task =
    | Grant(target: KeyId)
    | Upload(credentialType: string, metadata: Record, secret: Record)
    | Rotate(recipients: seq<KeyId>)

  datatype RecipientWrap = RecipientWrap(keyId: KeyId, wrapped: AgeBlob)

  /** A stored wrap; `own` again is bookkeeping, false when a grant wrapped another key. */
  datatype WrapRow = WrapRow(blob: AgeBlob, own: bool)

  datatype ListedDek = ListedDek(wrappedDek: Aead<Key>, vaultVersion: nat)

  /** The body of `orgVault.rotate`, plus the vault its client worked with and the key it drew. */
  datatype Rotation = Rotation(
    vault: Unlocked,
    newKey: Key,
    wraps: seq<RecipientWrap>,
    deks: map<CredRef, Aead<Key>>)
  {
    const fromVersion: nat := vault.vaultVersion
  }

  datatype Bootstrap = Bootstrap(vaultKey: Key, wraps: seq<RecipientWrap>)

  datatype Op =
    | Unlocking(task: Task)
    | Fetched(task: Task, vault: Unlocked)
    | Ready(task: Task, vault: Unlocked)
    | UploadSent(cred: CredRef, envelope: Envelope, own: bool)
    | UploadChecked(cred: CredRef, envelope: Envelope, own: bool)
    | GrantSent(target: KeyId, version: nat, wrapped: AgeBlob, own: bool)
    | GrantChecked(target: KeyId, version: nat, wrapped: AgeBlob, own: bool)
    | RotateListed(vault: Unlocked, newKey: Key, recipients: seq<KeyId>, listed: map<CredRef, ListedDek>)
    | RotateSent(rotation: Rotation)
    | RotatePrechecked(rotation: Rotation)
    | RotateCovered(rotation: Rotation)
    | RotateCommitted
    | BootMinted(vaultKey: Key, deviceKeyId: KeyId, deviceRecipient: PublicKey, recovery: Identity)
    | BootSent(boot: Bootstrap)
    | BootChecked(boot: Bootstrap)

  /**
   * `orgId` is the organization the command read at its start. The server takes the
   * organization of each request from the session instead, which may have been switched
   * in between, so it can be another than the one whose tables the command works on.
   */
  datatype Command = Command(device: Identity, orgId: string, op: Op)

  /** What a credential was sealed with: its data key, its organization, and the records the command was given. */
  datatype SealedDek = SealedDek(dek: Key, orgId: string, metadata: Record, secret: Record)

  /**
   * `vault`, `wraps`, `keys` and `creds` are the server's tables for one organization;
   * `caches` is each device's keychain entry, which the organizations a device works in
   * share; `ops` the commands in flight. The rest is bookkeeping no program reads: keys
   * drawn so far, those drawn in other organizations, the key of each vault version, the
   * data key, organization and record each credential was sealed with, and the credentials
   * that were ever stored.
   */
  datatype State = State(
    orgId: string,
    vault: Option<nat>,
    wraps: map<(nat, KeyId), WrapRow>,
    keys: map<KeyId, KeyRow>,
    creds: map<CredRef, Envelope>,
    caches: map<Identity, Unlocked>,
    ops: map<OpId, Command>,
    nextKey: Key,
    foreign: set<Key>,
    history: seq<Key>,
    deks: map<CredRef, SealedDek>,
    landed: set<CredRef>)

  function Init(orgId: string): State {
    State(orgId, None, map[], map[], map[], map[], map[], 0, {}, [], map[], {})
  }

  /** The key this organization's vault had at that version. */
  predicate TrueKey(s: State, key: Key, version: nat) {
    1 <= version <= |s.history| && key == s.history[version - 1]
  }

  /** The envelope's data key is bound to this organization. */
  predicate Bound(s: State, e: Envelope) {
    e.wrappedDek.binding.orgId == s.orgId
  }

  datatype Step =
    | RegisterKey(keyId: KeyId, row: KeyRow)
    | DropDeviceWraps(keyIds: set<KeyId>, revoked: set<KeyId>)
    | DeleteCredential(cred: CredRef)
    | ExpireCache(device: Identity)
    | DrawElsewhere
    | CacheElsewhere(device: Identity, vaultKey: Key, vaultVersion: nat)
    | Crash(o: OpId)
    | Begin(o: OpId, device: Identity, orgId: string, task: Task, useCache: bool)
    | FetchWrap(o: OpId, keyId: KeyId)
    | FetchElsewhere(o: OpId, vaultKey: Key, vaultVersion: nat)
    | StoreCache(o: OpId, keep: bool)
    | Seal(o: OpId, id: string)
    | CheckUpload(o: OpId)
    | InsertUpload(o: OpId)
    | WrapForTarget(o: OpId)
    | CheckGrant(o: OpId)
    | InsertGrant(o: OpId)
    | ListDeks(o: OpId)
    | ListElsewhere(o: OpId)
    | Rewrap(o: OpId)
    | CheckRotate(o: OpId)
    | CheckCoverage(o: OpId)
    | CommitRotate(o: OpId)
    | ForgetCache(o: OpId)
    | BeginBootstrap(o: OpId, device: Identity, deviceKeyId: KeyId, recovery: Identity)
    | RegisterRecovery(o: OpId, keyId: KeyId)
    | CheckBootstrap(o: OpId)
    | CommitBootstrap(o: OpId)

  // ---------------------------------------------------------------- guards

  /** What another organization may hand out: a key of its own, or one of ours that was granted there. */
  predicate HeldElsewhere(s: State, vaultKey: Key, vaultVersion: nat) {
    vaultVersion >= 1 && (vaultKey in s.foreign || vaultKey in s.history)
  }

  /** When a step can happen. The checks a program makes for itself are in the step's effect. */
  predicate Enabled(s: State, step: Step) {
    match step
    case RegisterKey(keyId, row) => keyId !in s.keys && !row.revoked
    case DropDeviceWraps(keyIds, revoked) =>
      revoked <= keyIds && forall k | k in keyIds :: k in s.keys && s.keys[k].kind.Device?
    case DeleteCredential(cred) => cred in s.creds
    case ExpireCache(device) => true
    case DrawElsewhere => true
    case CacheElsewhere(device, vaultKey, vaultVersion) => HeldElsewhere(s, vaultKey, vaultVersion)
    case Crash(o) => o in s.ops
    case Begin(o, device, orgId, task, useCache) => o !in s.ops
    case FetchWrap(o, keyId) =>
      o in s.ops && s.ops[o].op.Unlocking? && keyId in s.keys && s.keys[keyId].publicKey == PublicKey(s.ops[o].device)
    case FetchElsewhere(o, vaultKey, vaultVersion) =>
      o in s.ops && s.ops[o].op.Unlocking? && HeldElsewhere(s, vaultKey, vaultVersion)
    case StoreCache(o, keep) => o in s.ops && s.ops[o].op.Fetched?
    case Seal(o, id) =>
      && o in s.ops && s.ops[o].op.Ready? && s.ops[o].op.task.Upload?
      && CredRef(s.ops[o].op.task.credentialType, id) !in s.deks
    case CheckUpload(o) => o in s.ops && s.ops[o].op.UploadSent?
    case InsertUpload(o) => o in s.ops && s.ops[o].op.UploadChecked?
    case WrapForTarget(o) =>
      o in s.ops && s.ops[o].op.Ready? && s.ops[o].op.task.Grant? && s.ops[o].op.task.target in s.keys
    case CheckGrant(o) => o in s.ops && s.ops[o].op.GrantSent?
    case InsertGrant(o) => o in s.ops && s.ops[o].op.GrantChecked?
    case ListDeks(o) =>
      && o in s.ops && s.ops[o].op.Ready? && s.ops[o].op.task.Rotate? && s.vault.Some?
      && forall k | k in s.ops[o].op.task.recipients :: k in s.keys
    case ListElsewhere(o) =>
      && o in s.ops && s.ops[o].op.Ready? && s.ops[o].op.task.Rotate?
      && forall k | k in s.ops[o].op.task.recipients :: k in s.keys
    case Rewrap(o) => o in s.ops && s.ops[o].op.RotateListed? && forall k | k in s.ops[o].op.recipients :: k in s.keys
    case CheckRotate(o) => o in s.ops && s.ops[o].op.RotateSent?
    case CheckCoverage(o) => o in s.ops && s.ops[o].op.RotatePrechecked?
    case CommitRotate(o) => o in s.ops && s.ops[o].op.RotateCovered?
    case ForgetCache(o) => o in s.ops && s.ops[o].op.RotateCommitted?
    case BeginBootstrap(o, device, deviceKeyId, recovery) =>
      o !in s.ops && deviceKeyId in s.keys && s.keys[deviceKeyId].publicKey == PublicKey(device)
    case RegisterRecovery(o, keyId) =>
      o in s.ops && s.ops[o].op.BootMinted? && keyId !in s.keys
    case CheckBootstrap(o) => o in s.ops && s.ops[o].op.BootSent?
    case CommitBootstrap(o) => o in s.ops && s.ops[o].op.BootChecked?
  }

  // ---------------------------------------------------------------- effects

  /** The commands, with `o` moved on. */
  function Moved(s: State, o: OpId, op: Op): map<OpId, Command>
    requires o in s.ops
  {
    s.ops[o := s.ops[o].(op := op)]
  }

  function Advance(s: State, o: OpId, op: Op): State
    requires o in s.ops
  {
    s.(ops := Moved(s, o, op))
  }

  /** The command ends: it finished, failed, or its process went away. */
  function End(s: State, o: OpId): State {
    s.(ops := s.ops - {o})
  }

  /** `getWrap` at the current version, then the local age unwrap. */
  function FetchedKey(s: State, o: OpId, keyId: KeyId): Option<Unlocked>
    requires o in s.ops
  {
    if s.vault.None? || (s.vault.value, keyId) !in s.wraps then None
    else
      var row := s.wraps[(s.vault.value, keyId)];
      match UnwrapVaultKey(row.blob, s.ops[o].device)
      case None => None
      case Some(key) => Some(Unlocked(key, s.vault.value, row.own))
  }

  /** A key from another organization, with its mark. */
  function Brought(s: State, vaultKey: Key, vaultVersion: nat): Unlocked {
    Unlocked(vaultKey, vaultVersion, TrueKey(s, vaultKey, vaultVersion))
  }

  function SealStep(s: State, o: OpId, id: string): State
    requires o in s.ops && s.ops[o].op.Ready? && s.ops[o].op.task.Upload?
  {
    var Ready(Upload(credentialType, metadata, secret), vault) := s.ops[o].op;
    var cred := CredRef(credentialType, id);
    var orgId := s.ops[o].orgId;
    var session := Session(orgId, vault.vaultKey, vault.vaultVersion);
    var envelope := SealForUpload(session, id, s.nextKey, credentialType, metadata, secret);
    var ops := Moved(s, o, UploadSent(cred, envelope, vault.own));
    s.(ops := ops, nextKey := s.nextKey + 1, deks := s.deks[cred := SealedDek(s.nextKey, orgId, metadata, secret)])
  }

  /** `assertVaultVersionCurrent`: only an existing vault at another version rejects. */
  predicate UploadVersionCurrent(s: State, envelope: Envelope) {
    s.vault.None? || s.vault.value == envelope.vaultVersion
  }

  predicate GrantAllowed(s: State, target: KeyId) {
    target in s.keys && !s.keys[target].ForeignOrgKey() && !s.keys[target].revoked && s.vault.Some?
  }

  /** The version-guarded insert of one wrap row, which a duplicate row makes fail. */
  function InsertGrantStep(s: State, o: OpId): State
    requires o in s.ops && s.ops[o].op.GrantChecked?
  {
    var GrantChecked(target, version, wrapped, own) := s.ops[o].op;
    if s.vault == Some(version) && (version, target) !in s.wraps then
      s.(ops := s.ops - {o}, wraps := s.wraps[(version, target) := WrapRow(wrapped, own)])
    else
      End(s, o)
  }

  function Listing(s: State): map<CredRef, ListedDek> {
    map r | r in s.creds :: ListedDek(s.creds[r].wrappedDek, s.creds[r].vaultVersion)
  }

  /**
   * The client draws the new key and takes the listing. One taken in another organization
   * names no credential of this one: the coverage check refuses it unless it is empty.
   */
  function ListStep(s: State, o: OpId, listed: map<CredRef, ListedDek>): State
    requires o in s.ops && s.ops[o].op.Ready? && s.ops[o].op.task.Rotate?
  {
    var Ready(Rotate(recipients), vault) := s.ops[o].op;
    s.(ops := Moved(s, o, RotateListed(vault, s.nextKey, recipients, listed)), nextKey := s.nextKey + 1)
  }

  function RawDek(orgId: string, cred: CredRef, listed: ListedDek, vaultKey: Key): Option<Key> {
    UnwrapDek(listed.wrappedDek, vaultKey, DekBinding(orgId, cred.id, listed.vaultVersion))
  }

  predicate AllUnwrap(orgId: string, listed: map<CredRef, ListedDek>, vaultKey: Key) {
    forall r | r in listed :: RawDek(orgId, r, listed[r], vaultKey).Some?
  }

  function WrapAll(s: State, recipients: seq<KeyId>, vaultKey: Key): (wraps: seq<RecipientWrap>)
    requires forall k | k in recipients :: k in s.keys
  {
    seq(|recipients|, i requires 0 <= i < |recipients| =>
      RecipientWrap(recipients[i], WrapVaultKey(vaultKey, s.keys[recipients[i]].publicKey)))
  }

  /** The local half of `rotateVaultTo` for organization `orgId`: re-wrap the new key and every listed DEK. */
  function Rewrapped(
    s: State, orgId: string, vault: Unlocked, newKey: Key, recipients: seq<KeyId>, listed: map<CredRef, ListedDek>)
    : Rotation
    requires AllUnwrap(orgId, listed, vault.vaultKey)
    requires forall k | k in recipients :: k in s.keys
  {
    var deks := map r | r in listed ::
      var dek := RawDek(orgId, r, listed[r], vault.vaultKey).value;
      WrapDek(dek, newKey, DekBinding(orgId, r.id, vault.vaultVersion + 1));
    Rotation(vault, newKey, WrapAll(s, recipients, newKey), deks)
  }

  function RewrapStep(s: State, o: OpId): State
    requires o in s.ops && s.ops[o].op.RotateListed?
    requires forall k | k in s.ops[o].op.recipients :: k in s.keys
  {
    var RotateListed(vault, newKey, recipients, listed) := s.ops[o].op;
    var orgId := s.ops[o].orgId;
    if AllUnwrap(orgId, listed, vault.vaultKey)
    then Advance(s, o, RotateSent(Rewrapped(s, orgId, vault, newKey, recipients, listed)))
    else End(s, o)
  }

  predicate Distinct(wraps: seq<RecipientWrap>) {
    forall i, j | 0 <= i < j < |wraps| :: wraps[i].keyId != wraps[j].keyId
  }

  /** The recipient rules of bootstrap and rotate: registered, distinct, in-org, a recovery key among them. */
  predicate RecipientsAllowed(s: State, wraps: seq<RecipientWrap>) {
    && Distinct(wraps)
    && (forall w | w in wraps :: w.keyId in s.keys && !s.keys[w.keyId].ForeignOrgKey())
    && exists w | w in wraps :: w.keyId in s.keys && s.keys[w.keyId].kind.Recovery?
  }

  function WrapRows(version: nat, wraps: seq<RecipientWrap>): map<(nat, KeyId), WrapRow> {
    if wraps == [] then map[]
    else
      var last := wraps[|wraps| - 1];
      WrapRows(version, wraps[..|wraps| - 1])[(version, last.keyId) := WrapRow(last.wrapped, true)]
  }

  /** The inserted rows are the wraps of the list, at that version. */
  lemma {:induction false} RowsOfList(version: nat, wraps: seq<RecipientWrap>)
    ensures
      var rows := WrapRows(version, wraps);
      && (forall k | k in rows :: k.0 == version && rows[k].own && RecipientWrap(k.1, rows[k].blob) in wraps)
      && (forall w | w in wraps :: (version, w.keyId) in rows)
  {
    if wraps != [] {
      RowsOfList(version, wraps[..|wraps| - 1]);
    }
  }

  /** One `UPDATE` per submitted DEK, each guarded by the row's own version and nothing else. */
  function RewrittenRow(row: Envelope, cred: CredRef, rotation: Rotation): Envelope {
    if cred in rotation.deks && row.vaultVersion == rotation.fromVersion
    then row.(wrappedDek := rotation.deks[cred], vaultVersion := rotation.fromVersion + 1)
    else row
  }

  predicate WinsCas(s: State, rotation: Rotation) {
    s.vault == Some(rotation.fromVersion)
  }

  /**
   * The rotate batch in statement order: guarded inserts at the new version, the
   * delete of the old version's wraps, the DEK updates, the guarded version bump.
   * Only the first and the last compare against the vault's version.
   */
  function RotateBatch(s: State, rotation: Rotation): State {
    var won := WinsCas(s, rotation);
    var inserted := if won then s.wraps + WrapRows(rotation.fromVersion + 1, rotation.wraps) else s.wraps;
    s.(wraps := map k | k in inserted && k.0 != rotation.fromVersion :: inserted[k],
       creds := map r | r in s.creds :: RewrittenRow(s.creds[r], r, rotation),
       vault := if won then Some(rotation.fromVersion + 1) else s.vault,
       history := if won then s.history + [rotation.newKey] else s.history)
  }

  /** The batch runs, and only then is the version bump's row count looked at. */
  function CommitRotateStep(s: State, o: OpId): State
    requires o in s.ops && s.ops[o].op.RotateCovered?
  {
    var rotation := s.ops[o].op.rotation;
    if WinsCas(s, rotation)
    then Advance(RotateBatch(s, rotation), o, RotateCommitted)
    else End(RotateBatch(s, rotation), o)
  }

  function RegisterRecoveryStep(s: State, o: OpId, keyId: KeyId): State
    requires o in s.ops && s.ops[o].op.BootMinted?
  {
    var BootMinted(vaultKey, deviceKeyId, deviceRecipient, recovery) := s.ops[o].op;
    var wraps := [
      RecipientWrap(deviceKeyId, WrapVaultKey(vaultKey, deviceRecipient)),
      RecipientWrap(keyId, WrapVaultKey(vaultKey, PublicKey(recovery)))];
    var ops := Moved(s, o, BootSent(Bootstrap(vaultKey, wraps)));
    s.(ops := ops, keys := s.keys[keyId := KeyRow(PublicKey(recovery), Recovery, false, false)])
  }

  /** The primary key on the vault row makes the whole bootstrap batch fail when a vault exists. */
  function CommitBootstrapStep(s: State, o: OpId): State
    requires o in s.ops && s.ops[o].op.BootChecked?
  {
    var boot := s.ops[o].op.boot;
    if s.vault.Some? then End(s, o)
    else
      s.(ops := s.ops - {o}, vault := Some(1), wraps := s.wraps + WrapRows(1, boot.wraps), history := [boot.vaultKey])
  }

  function Next(s: State, step: Step): State
    requires Enabled(s, step)
  {
    match step
    case RegisterKey(keyId, row) => s.(keys := s.keys[keyId := row])
    case DropDeviceWraps(keyIds, revoked) =>
      s.(wraps := map k | k in s.wraps && k.1 !in keyIds :: s.wraps[k],
         keys := map k | k in s.keys :: if k in revoked then s.keys[k].(revoked := true) else s.keys[k])
    case DeleteCredential(cred) => s.(creds := s.creds - {cred})
    case ExpireCache(device) => s.(caches := s.caches - {device})
    case DrawElsewhere => s.(foreign := s.foreign + {s.nextKey}, nextKey := s.nextKey + 1)
    case CacheElsewhere(device, vaultKey, vaultVersion) =>
      s.(caches := s.caches[device := Brought(s, vaultKey, vaultVersion)])
    case Crash(o) => End(s, o)
    case Begin(o, device, orgId, task, useCache) =>
      s.(ops := s.ops[o := Command(device, orgId,
           if useCache && device in s.caches then Ready(task, s.caches[device]) else Unlocking(task))])
    case FetchWrap(o, keyId) =>
      (match FetchedKey(s, o, keyId)
       case None => End(s, o)
       case Some(vault) => Advance(s, o, Fetched(s.ops[o].op.task, vault)))
    case FetchElsewhere(o, vaultKey, vaultVersion) =>
      Advance(s, o, Fetched(s.ops[o].op.task, Brought(s, vaultKey, vaultVersion)))
    case StoreCache(o, keep) =>
      var Command(device, _, Fetched(task, vault)) := s.ops[o];
      s.(ops := Moved(s, o, Ready(task, vault)), caches := if keep then s.caches[device := vault] else s.caches)
    case Seal(o, id) => SealStep(s, o, id)
    case CheckUpload(o) =>
      var UploadSent(cred, envelope, own) := s.ops[o].op;
      if UploadVersionCurrent(s, envelope) then Advance(s, o, UploadChecked(cred, envelope, own)) else End(s, o)
    case InsertUpload(o) =>
      var UploadChecked(cred, envelope, _) := s.ops[o].op;
      s.(ops := s.ops - {o}, creds := s.creds[cred := envelope], landed := s.landed + {cred})
    case WrapForTarget(o) =>
      var Ready(Grant(target), vault) := s.ops[o].op;
      var wrapped := WrapVaultKey(vault.vaultKey, s.keys[target].publicKey);
      Advance(s, o, GrantSent(target, vault.vaultVersion, wrapped, vault.own))
    case CheckGrant(o) =>
      var GrantSent(target, version, wrapped, own) := s.ops[o].op;
      if GrantAllowed(s, target) then Advance(s, o, GrantChecked(target, version, wrapped, own)) else End(s, o)
    case InsertGrant(o) => InsertGrantStep(s, o)
    case ListDeks(o) => ListStep(s, o, Listing(s))
    case ListElsewhere(o) => ListStep(s, o, map[])
    case Rewrap(o) => RewrapStep(s, o)
    case CheckRotate(o) =>
      var rotation := s.ops[o].op.rotation;
      if RecipientsAllowed(s, rotation.wraps) && WinsCas(s, rotation)
      then Advance(s, o, RotatePrechecked(rotation)) else End(s, o)
    case CheckCoverage(o) =>
      var rotation := s.ops[o].op.rotation;
      if s.creds.Keys == rotation.deks.Keys then Advance(s, o, RotateCovered(rotation)) else End(s, o)
    case CommitRotate(o) => CommitRotateStep(s, o)
    case ForgetCache(o) => s.(ops := s.ops - {o}, caches := s.caches - {s.ops[o].device})
    case BeginBootstrap(o, device, deviceKeyId, recovery) =>
      var op := BootMinted(s.nextKey, deviceKeyId, PublicKey(device), recovery);
      s.(ops := s.ops[o := Command(device, s.orgId, op)], nextKey := s.nextKey + 1)
    case RegisterRecovery(o, keyId) => RegisterRecoveryStep(s, o, keyId)
    case CheckBootstrap(o) =>
      var boot := s.ops[o].op.boot;
      if RecipientsAllowed(s, boot.wraps) then Advance(s, o, BootChecked(boot)) else End(s, o)
    case CommitBootstrap(o) => CommitBootstrapStep(s, o)
  }

  // ---------------------------------------------------------------- runs

  ghost predicate CanRun(s: State, steps: seq<Step>)
    decreases |steps|
  {
    steps == [] || (Enabled(s, steps[0]) && CanRun(Next(s, steps[0]), steps[1..]))
  }

  /** The state a run ends in; `Init` and then any interleaving is what the system can do. */
  ghost function After(s: State, steps: seq<Step>): State
    requires CanRun(s, steps)
    decreases |steps|
  {
    if steps == [] then s else After(Next(s, steps[0]), steps[1..])
  }
}
