/** Every step keeps the invariant and only grows the history. */
module VaultPreserved {
  import opened Wrappers
  import opened Crypto
  import opened CredentialCipher
  import opened VaultModel
  import opened VaultFrames
  import opened VaultInvariant

  /** Commands other than `o` are untouched. */
  ghost predicate OthersKept(s: State, t: State, o: OpId) {
    forall p | p in t.ops && p != o :: p in s.ops && t.ops[p] == s.ops[p]
  }

  lemma OpsKept(s: State, t: State, o: OpId)
    requires OpsOk(s) && Grows(s, t) && OthersKept(s, t, o)
    requires o in t.ops ==> OpOk(t, t.ops[o].op)
    ensures OpsOk(t)
  {
    forall p | p in t.ops
      ensures OpOk(t, t.ops[p].op)
    {
      if p != o {
        OpGrows(s, t, s.ops[p].op);
      }
    }
  }

  lemma CredsKept(s: State, t: State)
    requires CredsOk(s) && Grows(s, t)
    requires forall r | r in t.creds :: r in s.creds && t.creds[r] == s.creds[r]
    ensures CredsOk(t)
  {
    forall r | r in t.creds
      ensures RowOk(t, r, t.creds[r])
    {
      RowGrows(s, t, r, s.creds[r]);
    }
  }

  /** A step that leaves the tables alone and changes at most the command `o` and the caches. */
  ghost predicate Local(s: State, t: State, o: OpId) {
    && t.orgId == s.orgId
    && t.vault == s.vault && t.wraps == s.wraps && t.keys == s.keys && t.creds == s.creds
    && t.history == s.history && t.landed == s.landed && t.foreign == s.foreign
    && OthersKept(s, t, o)
  }

  /** `o` holds no pending key, the one it held before, or one drawn in this very step. */
  ghost predicate PendingFrom(s: State, t: State, o: OpId) {
    && s.nextKey <= t.nextKey
    && (o in t.ops && PendingKey(t.ops[o].op).Some? ==>
          || (o in s.ops && PendingKey(t.ops[o].op) == PendingKey(s.ops[o].op))
          || (PendingKey(t.ops[o].op).value == s.nextKey < t.nextKey))
  }

  /** `o` stores nothing, what it was storing before, or a credential sealed in this very step. */
  ghost predicate UploadFrom(s: State, t: State, o: OpId) {
    && (forall r | r in s.deks :: r in t.deks && t.deks[r] == s.deks[r])
    && (o in t.ops && UploadOf(t.ops[o].op).Some? ==>
          || (o in s.ops && UploadOf(t.ops[o].op) == UploadOf(s.ops[o].op))
          || UploadOf(t.ops[o].op).value !in s.deks)
  }

  /** Every cached key was cached before, or was held before the step. */
  ghost predicate CachesFrom(s: State, t: State) {
    forall d | d in t.caches :: UnlockedOk(s, t.caches[d])
  }

  lemma LocalGrows(s: State, t: State, o: OpId)
    requires HistoryOk(s) && PendingOk(s) && Local(s, t, o) && PendingFrom(s, t, o) && UploadFrom(s, t, o)
    ensures Grows(s, t)
  {
    forall k | Settled(s, k)
      ensures Settled(t, k)
    {
    }
  }

  lemma UploadsKept(s: State, t: State, o: OpId)
    requires UploadsOk(s) && Local(s, t, o) && UploadFrom(s, t, o)
    requires forall p | p in s.ops && UploadOf(s.ops[p].op).Some? :: UploadOf(s.ops[p].op).value in s.deks
    ensures UploadsOk(t)
  {
  }

  lemma PendingKept(s: State, t: State, o: OpId)
    requires HistoryOk(s) && PendingOk(s) && Local(s, t, o) && PendingFrom(s, t, o)
    ensures HistoryOk(t) && PendingOk(t)
  {
  }

  lemma UploadsAreSealed(s: State)
    requires OpsOk(s)
    ensures forall p | p in s.ops && UploadOf(s.ops[p].op).Some? :: UploadOf(s.ops[p].op).value in s.deks
  {
    forall p | p in s.ops && UploadOf(s.ops[p].op).Some?
      ensures UploadOf(s.ops[p].op).value in s.deks
    {
      assert OpOk(s, s.ops[p].op);
    }
  }

  /** Wraps stay good as long as the version and the rows themselves stay. */
  lemma WrapsKept(s: State, t: State)
    requires WrapsOk(s) && Grows(s, t) && t.history == s.history
    requires forall k | k in t.wraps :: k in s.wraps && t.wraps[k] == s.wraps[k]
    ensures WrapsOk(t)
  {
  }

  lemma CachesKept(s: State, t: State)
    requires CachesFrom(s, t) && Grows(s, t)
    ensures CachesOk(t)
  {
    forall d | d in t.caches
      ensures UnlockedOk(t, t.caches[d])
    {
      UnlockedGrows(s, t, t.caches[d]);
    }
  }

  lemma LocalKeeps(s: State, t: State, o: OpId)
    requires Inv(s) && Local(s, t, o) && PendingFrom(s, t, o) && UploadFrom(s, t, o) && CachesFrom(s, t)
    requires o in t.ops ==> OpOk(t, t.ops[o].op)
    ensures Grows(s, t) && Inv(t)
  {
    LocalGrows(s, t, o);
    PendingKept(s, t, o);
    UploadsAreSealed(s);
    UploadsKept(s, t, o);
    hide Grows, HistoryOk, PendingOk, UploadsOk, CachesOk, CredsOk, WrapsOk, OpsOk, PendingFrom, UploadFrom, CachesFrom;
    OpsKept(s, t, o);
    CredsKept(s, t);
    WrapsKept(s, t);
    CachesKept(s, t);
    RecoveryKept(s, t);
  }

  lemma EndKeeps(s: State, o: OpId)
    requires Inv(s)
    ensures Grows(s, End(s, o)) && Inv(End(s, o))
  {
    hide HistoryOk, PendingOk, UploadsOk, CredsOk, WrapsOk, OpsOk, RecoveryOk, UnlockedOk, Grows;
    LocalKeeps(s, End(s, o), o);
  }

  lemma AdvanceKeeps(s: State, o: OpId, op: Op)
    requires Inv(s) && o in s.ops
    requires PendingKey(op).None? || PendingKey(op) == PendingKey(s.ops[o].op)
    requires UploadOf(op).None? || UploadOf(op) == UploadOf(s.ops[o].op)
    requires OpOk(s, op)
    ensures Grows(s, Advance(s, o, op)) && Inv(Advance(s, o, op))
  {
    hide HistoryOk, PendingOk, UploadsOk, CredsOk, WrapsOk, OpsOk, RecoveryOk, UnlockedOk, Grows, OpOk;
    var t := Advance(s, o, op);
    LocalGrows(s, t, o);
    OpGrows(s, t, op);
    LocalKeeps(s, t, o);
  }

  lemma BeginKeeps(s: State, o: OpId, device: Identity, orgId: string, task: Task, useCache: bool)
    requires Inv(s) && o !in s.ops
    ensures var t := Next(s, Begin(o, device, orgId, task, useCache)); Grows(s, t) && Inv(t)
  {
    hide HistoryOk, PendingOk, UploadsOk, CredsOk, WrapsOk, OpsOk, RecoveryOk, UnlockedOk, Grows;
    var t := Next(s, Begin(o, device, orgId, task, useCache));
    assert t == s.(ops := t.ops);
    LocalGrows(s, t, o);
    OpGrows(s, t, t.ops[o].op);
    LocalKeeps(s, t, o);
  }

  lemma FetchedIsOk(s: State, o: OpId, keyId: KeyId)
    requires HistoryOk(s) && WrapsOk(s) && Enabled(s, FetchWrap(o, keyId)) && FetchedKey(s, o, keyId).Some?
    ensures UnlockedOk(s, FetchedKey(s, o, keyId).value)
    ensures FetchedKey(s, o, keyId).value.vaultVersion == |s.history|
  {
    assert WrapOk(s, s.vault.value, keyId, s.wraps[(s.vault.value, keyId)]);
  }

  lemma FetchKeeps(s: State, o: OpId, keyId: KeyId)
    requires Inv(s) && Enabled(s, FetchWrap(o, keyId))
    ensures var t := Next(s, FetchWrap(o, keyId)); Grows(s, t) && Inv(t)
  {
    hide HistoryOk, PendingOk, UploadsOk, CredsOk, WrapsOk, OpsOk, RecoveryOk, UnlockedOk, Grows, CachesOk, FetchedKey;
    match FetchedKey(s, o, keyId)
    case None => EndKeeps(s, o);
    case Some(vault) =>
      FetchedIsOk(s, o, keyId);
      AdvanceKeeps(s, o, Fetched(s.ops[o].op.task, vault));
  }

  lemma FetchElsewhereKeeps(s: State, o: OpId, key: Key, version: nat)
    requires Inv(s) && Enabled(s, FetchElsewhere(o, key, version))
    ensures var t := Next(s, FetchElsewhere(o, key, version)); Grows(s, t) && Inv(t)
  {
    BroughtIsOk(s, key, version);
    hide Inv, UnlockedOk, Grows, Brought;
    AdvanceKeeps(s, o, Fetched(s.ops[o].op.task, Brought(s, key, version)));
  }

  lemma StoreCacheKeeps(s: State, o: OpId, keep: bool)
    requires Inv(s) && Enabled(s, StoreCache(o, keep))
    ensures var t := Next(s, StoreCache(o, keep)); Grows(s, t) && Inv(t)
  {
    hide WrapsOk, RecoveryOk, CredsOk, UploadsOk, PendingOk, Grows, HistoryOk, UnlockedOk;
    var t := Next(s, StoreCache(o, keep));
    assert OpOk(s, s.ops[o].op);
    LocalGrows(s, t, o);
    OpGrows(s, t, t.ops[o].op);
    LocalKeeps(s, t, o);
  }

  lemma SealedIsOk(s: State, t: State, o: OpId, id: string)
    requires HistoryOk(s) && OpsOk(s) && Grows(s, t) && Enabled(s, Seal(o, id)) && t == SealStep(s, o, id)
    ensures OpOk(t, t.ops[o].op)
  {
    hide HistoryOk, KeysGrow, Settled, TrueKey;
    var Ready(_, vault) := s.ops[o].op;
    assert OpOk(s, s.ops[o].op);
    GrowsKeys(s, t);
    UnlockedGrows(s, t, vault);
  }

  lemma SealKeeps(s: State, o: OpId, id: string)
    requires Inv(s) && Enabled(s, Seal(o, id))
    ensures var t := Next(s, Seal(o, id)); Grows(s, t) && Inv(t)
  {
    hide WrapsOk, RecoveryOk, CredsOk, UploadsOk, PendingOk, Grows, HistoryOk, OpsOk, UnlockedOk;
    var t := SealStep(s, o, id);
    LocalGrows(s, t, o);
    SealedIsOk(s, t, o, id);
    LocalKeeps(s, t, o);
  }

  lemma CheckUploadKeeps(s: State, o: OpId)
    requires Inv(s) && Enabled(s, CheckUpload(o))
    ensures var t := Next(s, CheckUpload(o)); Grows(s, t) && Inv(t)
  {
    hide Grows, WrapsOk, RecoveryOk, CachesOk, PendingOk, UploadsOk, CredsOk, UploadOk;
    var UploadSent(cred, envelope, own) := s.ops[o].op;
    assert OpOk(s, s.ops[o].op);
    EndKeeps(s, o);
    if UploadVersionCurrent(s, envelope) {
      assert InRange(s, envelope.wrappedDek.key, envelope.vaultVersion);
      AdvanceKeeps(s, o, UploadChecked(cred, envelope, own));
    }
  }

  lemma WrapForTargetKeeps(s: State, o: OpId)
    requires Inv(s) && Enabled(s, WrapForTarget(o))
    ensures var t := Next(s, WrapForTarget(o)); Grows(s, t) && Inv(t)
  {
    var Ready(Grant(target), vault) := s.ops[o].op;
    assert OpOk(s, s.ops[o].op);
    var wrapped := WrapVaultKey(vault.vaultKey, s.keys[target].publicKey);
    AdvanceKeeps(s, o, GrantSent(target, vault.vaultVersion, wrapped, vault.own));
  }

  lemma CheckGrantKeeps(s: State, o: OpId)
    requires Inv(s) && Enabled(s, CheckGrant(o))
    ensures var t := Next(s, CheckGrant(o)); Grows(s, t) && Inv(t)
  {
    hide Grows, HistoryOk, WrapsOk, RecoveryOk, CachesOk, PendingOk, UploadsOk, CredsOk, GrantOk;
    var GrantSent(target, version, wrapped, own) := s.ops[o].op;
    assert OpOk(s, s.ops[o].op);
    EndKeeps(s, o);
    if GrantAllowed(s, target) {
      AdvanceKeeps(s, o, GrantChecked(target, version, wrapped, own));
    }
  }

  lemma ListingOk(s: State, t: State)
    requires CredsOk(s) && UploadsOk(s) && Grows(s, t) && t.creds == s.creds
    ensures forall r | r in s.creds :: ListedOk(t, r, Listing(s)[r])
  {
    forall r | r in s.creds
      ensures ListedOk(t, r, Listing(s)[r])
    {
      RowGrows(s, t, r, s.creds[r]);
    }
  }

  lemma ListStepKeeps(s: State, o: OpId, listed: map<CredRef, ListedDek>)
    requires Inv(s) && o in s.ops && s.ops[o].op.Ready? && s.ops[o].op.task.Rotate?
    requires forall k | k in s.ops[o].op.task.recipients :: k in s.keys
    requires forall r | r in listed :: r in s.creds && listed[r] == Listing(s)[r]
    ensures var t := ListStep(s, o, listed); Grows(s, t) && Inv(t)
  {
    hide Grows, ListedOk, HistoryOk, PendingOk, WrapsOk, RecoveryOk, UnlockedOk, UploadsOk, CredsOk, Listing;
    var vault := s.ops[o].op.vault;
    var t := ListStep(s, o, listed);
    assert OpOk(s, s.ops[o].op);
    LocalGrows(s, t, o);
    GrowsKeys(s, t);
    UnlockedGrows(s, t, vault);
    ListedOpOk(s, t, vault, s.ops[o].op.task.recipients, listed);
    LocalKeeps(s, t, o);
  }

  lemma ListedOpOk(
    s: State, t: State, vault: Unlocked, recipients: seq<KeyId>, listed: map<CredRef, ListedDek>)
    requires CredsOk(s) && UploadsOk(s) && Grows(s, t) && t.creds == s.creds && UnlockedOk(t, vault)
    requires forall k | k in recipients :: k in t.keys
    requires forall r | r in listed :: r in s.creds && listed[r] == Listing(s)[r]
    ensures OpOk(t, RotateListed(vault, s.nextKey, recipients, listed))
  {
    hide UnlockedOk, ListedOk;
    ListingOk(s, t);
  }

  /** A DEK unwraps under exactly the key it was listed under and for exactly the organization it is bound to. */
  lemma UnwrapsUnder(orgId: string, r: CredRef, l: ListedDek, key: Key)
    requires l.wrappedDek.binding == DekBinding(l.wrappedDek.binding.orgId, r.id, l.vaultVersion)
    ensures RawDek(orgId, r, l, key)
         == if l.wrappedDek.key == key && l.wrappedDek.binding.orgId == orgId then Some(l.wrappedDek.plain) else None
  {
    OrgShows(l.wrappedDek.binding.orgId, orgId, r.id, l.vaultVersion);
    hide Binding.Bytes;
  }

  /** Under a key of this organization nothing was listed before that key's version, and only now at it. */
  lemma OwnListing(s: State, r: CredRef, l: ListedDek, u: Unlocked)
    requires UnlockedOk(s, u) && u.own && ListedOk(s, r, l) && l.wrappedDek.key == u.vaultKey
    ensures r in s.creds ==>
              || s.creds[r].vaultVersion > u.vaultVersion
              || (s.creds[r].vaultVersion == u.vaultVersion && s.creds[r].wrappedDek.key == u.vaultKey)
  {
    assert s.history[u.vaultVersion - 1] == l.wrappedDek.key;
  }

  lemma RewrappedEntryOk(s: State, orgId: string, rotation: Rotation, r: CredRef, l: ListedDek)
    requires UnlockedOk(s, rotation.vault) && ListedOk(s, r, l) && r in rotation.deks
    requires RawDek(orgId, r, l, rotation.vault.vaultKey).Some?
    requires rotation.deks[r] == WrapDek(RawDek(orgId, r, l, rotation.vault.vaultKey).value, rotation.newKey,
                                         DekBinding(orgId, r.id, rotation.fromVersion + 1))
    ensures RewrappedOk(s, r, rotation)
  {
    hide RawDek, UnlockedOk, InRange, Settled;
    UnwrapsUnder(orgId, r, l, rotation.vault.vaultKey);
    if rotation.vault.own {
      OwnListing(s, r, l, rotation.vault);
    }
  }

  lemma RewrappedRotationOk(
    s: State, orgId: string, vault: Unlocked, newKey: Key, recipients: seq<KeyId>, listed: map<CredRef, ListedDek>)
    requires UnlockedOk(s, vault)
    requires forall r | r in listed :: ListedOk(s, r, listed[r])
    requires AllUnwrap(orgId, listed, vault.vaultKey)
    requires forall k | k in recipients :: k in s.keys
    ensures RotationOk(s, Rewrapped(s, orgId, vault, newKey, recipients, listed))
  {
    hide UnlockedOk, ListedOk, RawDek;
    var rotation := Rewrapped(s, orgId, vault, newKey, recipients, listed);
    forall r | r in rotation.deks
      ensures RewrappedOk(s, r, rotation)
    {
      assert r in listed && RawDek(orgId, r, listed[r], vault.vaultKey).Some?;
      RewrappedEntryOk(s, orgId, rotation, r, listed[r]);
    }
    assert WrapsFor(s, rotation.wraps, newKey);
  }

  lemma RewrapKeeps(s: State, o: OpId)
    requires Inv(s) && Enabled(s, Rewrap(o))
    ensures var t := Next(s, Rewrap(o)); Grows(s, t) && Inv(t)
  {
    hide HistoryOk, WrapsOk, RecoveryOk, CachesOk, PendingOk, UploadsOk, CredsOk, Grows;
    var RotateListed(vault, newKey, recipients, listed) := s.ops[o].op;
    assert OpOk(s, s.ops[o].op);
    var orgId := s.ops[o].orgId;
    if AllUnwrap(orgId, listed, vault.vaultKey) {
      RewrappedRotationOk(s, orgId, vault, newKey, recipients, listed);
      AdvanceKeeps(s, o, RotateSent(Rewrapped(s, orgId, vault, newKey, recipients, listed)));
    } else {
      EndKeeps(s, o);
    }
  }

  lemma CheckRotateKeeps(s: State, o: OpId)
    requires Inv(s) && Enabled(s, CheckRotate(o))
    ensures var t := Next(s, CheckRotate(o)); Grows(s, t) && Inv(t)
  {
    hide Grows, WrapsOk, RecoveryOk, CachesOk, PendingOk, UploadsOk, CredsOk, RotationOk;
    assert OpOk(s, s.ops[o].op);
    EndKeeps(s, o);
    if RecipientsAllowed(s, s.ops[o].op.rotation.wraps) && WinsCas(s, s.ops[o].op.rotation) {
      AdvanceKeeps(s, o, RotatePrechecked(s.ops[o].op.rotation));
    }
  }

  lemma CheckCoverageKeeps(s: State, o: OpId)
    requires Inv(s) && Enabled(s, CheckCoverage(o))
    ensures var t := Next(s, CheckCoverage(o)); Grows(s, t) && Inv(t)
  {
    hide Grows, HistoryOk, WrapsOk, RecoveryOk, CachesOk, PendingOk, UploadsOk, CredsOk;
    assert OpOk(s, s.ops[o].op);
    EndKeeps(s, o);
    AdvanceKeeps(s, o, RotateCovered(s.ops[o].op.rotation));
  }

  lemma ForgetCacheKeeps(s: State, o: OpId)
    requires Inv(s) && Enabled(s, ForgetCache(o))
    ensures var t := Next(s, ForgetCache(o)); Grows(s, t) && Inv(t)
  {
    hide HistoryOk, PendingOk, UploadsOk, CredsOk, WrapsOk, OpsOk, RecoveryOk, UnlockedOk, Grows;
    LocalKeeps(s, Next(s, ForgetCache(o)), o);
  }

  lemma CacheStepKeeps(s: State, caches: map<Identity, Unlocked>)
    requires Inv(s) && CachesFrom(s, s.(caches := caches))
    ensures Grows(s, s.(caches := caches)) && Inv(s.(caches := caches))
  {
    hide HistoryOk, PendingOk, UploadsOk, CredsOk, WrapsOk, RecoveryOk, CachesOk, UnlockedOk, Grows, CachesFrom;
    var t := s.(caches := caches);
    LocalGrows(s, t, 0);
    if 0 in s.ops {
      OpGrows(s, t, s.ops[0].op);
    }
    LocalKeeps(s, t, 0);
  }

  /** Keys drawn elsewhere and keys of this organization are settled, whatever version they are given. */
  lemma BroughtIsOk(s: State, key: Key, version: nat)
    requires HistoryOk(s) && PendingOk(s) && HeldElsewhere(s, key, version)
    ensures UnlockedOk(s, Brought(s, key, version))
  {
  }

  lemma CacheElsewhereKeeps(s: State, device: Identity, key: Key, version: nat)
    requires Inv(s) && Enabled(s, CacheElsewhere(device, key, version))
    ensures var t := Next(s, CacheElsewhere(device, key, version)); Grows(s, t) && Inv(t)
  {
    hide HistoryOk, PendingOk, UploadsOk, CredsOk, WrapsOk, OpsOk, RecoveryOk, UnlockedOk, Grows, Brought;
    BroughtIsOk(s, key, version);
    CacheStepKeeps(s, s.caches[device := Brought(s, key, version)]);
  }

  lemma DrawElsewhereGrows(s: State, t: State)
    requires HistoryOk(s) && PendingOk(s) && t == s.(foreign := s.foreign + {s.nextKey}, nextKey := s.nextKey + 1)
    ensures Grows(s, t) && HistoryOk(t) && PendingOk(t)
  {
  }

  lemma DrawElsewhereKeeps(s: State)
    requires Inv(s)
    ensures var t := Next(s, DrawElsewhere); Grows(s, t) && Inv(t)
  {
    hide HistoryOk, PendingOk, CredsOk, WrapsOk, RecoveryOk, UnlockedOk, Grows, OpOk;
    var t := s.(foreign := s.foreign + {s.nextKey}, nextKey := s.nextKey + 1);
    DrawElsewhereGrows(s, t);
    forall p | p in t.ops
      ensures OpOk(t, t.ops[p].op)
    {
      OpGrows(s, t, s.ops[p].op);
    }
    CredsKept(s, t);
    WrapsKept(s, t);
    CachesKept(s, t);
    RecoveryKept(s, t);
  }

  lemma BeginBootstrapKeeps(s: State, o: OpId, device: Identity, deviceKeyId: KeyId, recovery: Identity)
    requires Inv(s) && Enabled(s, BeginBootstrap(o, device, deviceKeyId, recovery))
    ensures var t := Next(s, BeginBootstrap(o, device, deviceKeyId, recovery)); Grows(s, t) && Inv(t)
  {
    hide HistoryOk, PendingOk, UploadsOk, CredsOk, WrapsOk, OpsOk, RecoveryOk, UnlockedOk, Grows;
    var t := Next(s, BeginBootstrap(o, device, deviceKeyId, recovery));
    LocalKeeps(s, t, o);
  }

  lemma CheckBootstrapKeeps(s: State, o: OpId)
    requires Inv(s) && Enabled(s, CheckBootstrap(o))
    ensures var t := Next(s, CheckBootstrap(o)); Grows(s, t) && Inv(t)
  {
    hide Grows, HistoryOk, WrapsOk, RecoveryOk, CachesOk, PendingOk, UploadsOk, CredsOk;
    assert OpOk(s, s.ops[o].op);
    EndKeeps(s, o);
    if RecipientsAllowed(s, s.ops[o].op.boot.wraps) {
      AdvanceKeeps(s, o, BootChecked(s.ops[o].op.boot));
    }
  }

  // ---------------------------------------------------------------- steps that write a table

  /** A step that writes tables only: no command, cache or key history changes. */
  ghost predicate TablesOnly(s: State, t: State) {
    && t.ops == s.ops && t.caches == s.caches && t.history == s.history && t.vault == s.vault
    && t.nextKey == s.nextKey && t.foreign == s.foreign && t.deks == s.deks && t.landed == s.landed
  }

  lemma TablesKeep(s: State, t: State)
    requires Inv(s) && Grows(s, t) && TablesOnly(s, t)
    requires WrapsOk(t) && RecoveryOk(t)
    requires forall r | r in t.creds :: r in s.creds && t.creds[r] == s.creds[r]
    ensures Inv(t)
  {
    forall p | p in t.ops
      ensures OpOk(t, t.ops[p].op)
    {
      OpGrows(s, t, s.ops[p].op);
    }
    CredsKept(s, t);
    CachesKept(s, t);
  }

  /** A recovery holder survives as long as the version and the recovery wrap rows do. */
  lemma RecoveryKept(s: State, t: State)
    requires RecoveryOk(s) && Grows(s, t) && t.history == s.history
    requires forall k | k in s.wraps && k.1 in s.keys && s.keys[k.1].kind.Recovery? ::
               k in t.wraps && t.wraps[k] == s.wraps[k]
    ensures RecoveryOk(t)
  {
    if s.history != [] {
      var k :| HoldsRecovery(s, k);
      assert HoldsRecovery(t, k);
    }
  }

  lemma RegisterKeeps(s: State, keyId: KeyId, row: KeyRow)
    requires Inv(s) && keyId !in s.keys
    ensures var t := s.(keys := s.keys[keyId := row]); Grows(s, t) && Inv(t)
  {
    var t := s.(keys := s.keys[keyId := row]);
    assert Grows(s, t);
    hide Grows, HistoryOk, PendingOk, UploadsOk, CredsOk, CachesOk, OpsOk, RecoveryOk, WrapsOk;
    WrapsKept(s, t);
    RecoveryKept(s, t);
    TablesKeep(s, t);
  }

  /** The recovery key is registered, and the bootstrap goes on with both wraps. */
  lemma RecoveryShape(s: State, o: OpId, keyId: KeyId, m: State, op: Op)
    requires Enabled(s, RegisterRecovery(o, keyId))
    requires m == s.(keys := RegisterRecoveryStep(s, o, keyId).keys)
    requires op == RegisterRecoveryStep(s, o, keyId).ops[o].op
    ensures m.keys == s.keys[keyId := KeyRow(PublicKey(s.ops[o].op.recovery), Recovery, false, false)]
    ensures Next(s, RegisterRecovery(o, keyId)) == Advance(m, o, op)
    ensures PendingKey(op) == PendingKey(s.ops[o].op) && UploadOf(op).None?
    ensures OpOk(s, s.ops[o].op) ==> OpOk(m, op)
  {
  }

  lemma RegisterRecoveryKeeps(s: State, o: OpId, keyId: KeyId)
    requires Enabled(s, RegisterRecovery(o, keyId))
    requires Inv(s)
    ensures var t := Next(s, RegisterRecovery(o, keyId)); Grows(s, t) && Inv(t)
  {
    hide Grows, HistoryOk, WrapsOk, RecoveryOk, CachesOk, PendingOk, UploadsOk, CredsOk, OpOk;
    var m := s.(keys := RegisterRecoveryStep(s, o, keyId).keys);
    var op := RegisterRecoveryStep(s, o, keyId).ops[o].op;
    RecoveryShape(s, o, keyId, m, op);
    assert OpOk(s, s.ops[o].op);
    hide RegisterRecoveryStep, OpsOk, Inv, Advance, Next;
    RegisterKeeps(s, keyId, m.keys[keyId]);
    AdvanceKeeps(m, o, op);
    GrowsTransitive(s, m, Advance(m, o, op));
  }

  lemma DroppedTables(s: State, t: State, keyIds: set<KeyId>, revoked: set<KeyId>)
    requires WrapsOk(s) && Enabled(s, DropDeviceWraps(keyIds, revoked))
    requires t == Next(s, DropDeviceWraps(keyIds, revoked))
    ensures t == s.(wraps := t.wraps, keys := t.keys)
    ensures Grows(s, t) && WrapsOk(t)
    ensures forall k | k in s.wraps && k.1 in s.keys && s.keys[k.1].kind.Recovery? ::
              k in t.wraps && t.wraps[k] == s.wraps[k]
  {
    DroppedKeys(s, t, keyIds, revoked);
  }

  lemma DroppedKeys(s: State, t: State, keyIds: set<KeyId>, revoked: set<KeyId>)
    requires Enabled(s, DropDeviceWraps(keyIds, revoked)) && t == Next(s, DropDeviceWraps(keyIds, revoked))
    ensures t == s.(wraps := t.wraps, keys := t.keys) && Grows(s, t)
  {
  }

  lemma DropWrapsKeeps(s: State, keyIds: set<KeyId>, revoked: set<KeyId>)
    requires Inv(s) && Enabled(s, DropDeviceWraps(keyIds, revoked))
    ensures var t := Next(s, DropDeviceWraps(keyIds, revoked)); Grows(s, t) && Inv(t)
  {
    var t := Next(s, DropDeviceWraps(keyIds, revoked));
    DroppedTables(s, t, keyIds, revoked);
    hide Grows, WrapsOk, RecoveryOk, CachesOk, PendingOk, UploadsOk, CredsOk, OpsOk, Next;
    RecoveryKept(s, t);
    TablesKeep(s, t);
  }

  lemma DeleteKeeps(s: State, cred: CredRef)
    requires Inv(s)
    ensures var t := s.(creds := s.creds - {cred}); Grows(s, t) && Inv(t)
  {
    var t := s.(creds := s.creds - {cred});
    assert Grows(s, t);
    hide Grows, HistoryOk, PendingOk, CredsOk, CachesOk, OpsOk, RecoveryOk, WrapsOk;
    WrapsKept(s, t);
    RecoveryKept(s, t);
    TablesKeep(s, t);
  }

  lemma InsertUploadGrows(s: State, t: State, o: OpId, cred: CredRef, envelope: Envelope)
    requires HistoryOk(s) && PendingOk(s) && UploadsOk(s)
    requires o in s.ops && s.ops[o].op.UploadChecked? && s.ops[o].op.cred == cred
    requires t == End(s, o).(creds := s.creds[cred := envelope], landed := s.landed + {cred})
    ensures Grows(s, t)
  {
    assert UploadOf(s.ops[o].op) == Some(cred);
  }

  lemma InsertUploadUploads(s: State, t: State, o: OpId, cred: CredRef, envelope: Envelope)
    requires UploadsOk(s) && cred in s.deks
    requires o in s.ops && s.ops[o].op.UploadChecked? && s.ops[o].op.cred == cred
    requires t == End(s, o).(creds := s.creds[cred := envelope], landed := s.landed + {cred})
    ensures UploadsOk(t)
  {
    assert UploadOf(s.ops[o].op) == Some(cred);
  }

  lemma InsertUploadCreds(s: State, t: State, cred: CredRef, envelope: Envelope)
    requires CredsOk(s) && Grows(s, t) && t.creds == s.creds[cred := envelope]
    requires RowOk(s, cred, envelope)
    ensures CredsOk(t)
  {
    forall r | r in t.creds
      ensures RowOk(t, r, t.creds[r])
    {
      RowGrows(s, t, r, if r == cred then envelope else s.creds[r]);
    }
  }

  lemma InsertUploadRest(s: State, t: State, o: OpId, cred: CredRef, envelope: Envelope)
    requires HistoryOk(s) && PendingOk(s) && CachesOk(s)
    requires t == End(s, o).(creds := s.creds[cred := envelope], landed := s.landed + {cred})
    ensures HistoryOk(t) && PendingOk(t) && CachesFrom(s, t) && OthersKept(s, t, o) && o !in t.ops
  {
  }

  lemma InsertUploadKeeps(s: State, o: OpId)
    requires Inv(s) && Enabled(s, InsertUpload(o))
    ensures var t := Next(s, InsertUpload(o)); Grows(s, t) && Inv(t)
  {
    var UploadChecked(cred, envelope, _) := s.ops[o].op;
    assert OpOk(s, s.ops[o].op);
    hide Grows, HistoryOk, WrapsOk, RecoveryOk, CachesOk, PendingOk, UploadsOk, CredsOk, OpsOk;
    var t := End(s, o).(creds := s.creds[cred := envelope], landed := s.landed + {cred});
    InsertUploadGrows(s, t, o, cred, envelope);
    InsertUploadUploads(s, t, o, cred, envelope);
    InsertUploadRest(s, t, o, cred, envelope);
    OpsKept(s, t, o);
    InsertUploadCreds(s, t, cred, envelope);
    WrapsKept(s, t);
    CachesKept(s, t);
    RecoveryKept(s, t);
  }

  lemma InsertGrantKeeps(s: State, o: OpId)
    requires Inv(s) && Enabled(s, InsertGrant(o))
    ensures var t := Next(s, InsertGrant(o)); Grows(s, t) && Inv(t)
  {
    hide WrapsOk, RecoveryOk, CachesOk, PendingOk, UploadsOk, CredsOk, Grows;
    var GrantChecked(target, version, wrapped, own) := s.ops[o].op;
    assert OpOk(s, s.ops[o].op);
    var m := End(s, o);
    EndKeeps(s, o);
    if s.vault == Some(version) && (version, target) !in s.wraps {
      GrowsKeys(s, m);
      GrantGrows(s, m, target, version, wrapped, own);
      GrantRowKeeps(m, target, wrapped, own);
      GrowsTransitive(s, m, InsertGrantStep(s, o));
    }
  }

  lemma GrantRowTables(s: State, t: State, target: KeyId, wrapped: AgeBlob, own: bool)
    requires WrapsOk(s) && s.history != [] && GrantOk(s, target, |s.history|, wrapped, own) && OwnKey(s, target)
    requires t == s.(wraps := s.wraps[(|s.history|, target) := WrapRow(wrapped, own)])
    ensures WrapsOk(t) && Grows(s, t)
  {
  }

  lemma GrantRowKeeps(s: State, target: KeyId, wrapped: AgeBlob, own: bool)
    requires Inv(s) && s.history != [] && (|s.history|, target) !in s.wraps
    requires GrantOk(s, target, |s.history|, wrapped, own) && OwnKey(s, target)
    ensures var t := s.(wraps := s.wraps[(|s.history|, target) := WrapRow(wrapped, own)]); Grows(s, t) && Inv(t)
  {
    var t := s.(wraps := s.wraps[(|s.history|, target) := WrapRow(wrapped, own)]);
    GrantRowTables(s, t, target, wrapped, own);
    hide Grows, WrapsOk, RecoveryOk, CachesOk, PendingOk, UploadsOk, CredsOk, OpsOk;
    RecoveryKept(s, t);
    TablesKeep(s, t);
  }

  // ---------------------------------------------------------------- the rotate batch

  /** What the batch of `rotation` leaves alone, and what it does to each credential row. */
  ghost predicate BatchFrame(s: State, t: State, o: OpId, rotation: Rotation) {
    && t.orgId == s.orgId && t.keys == s.keys && t.caches == s.caches
    && t.nextKey == s.nextKey && t.foreign == s.foreign && t.deks == s.deks && t.landed == s.landed
    && OthersKept(s, t, o) && (o in t.ops ==> t.ops[o].op.RotateCommitted?)
    && t.creds.Keys == s.creds.Keys
    && (forall r | r in t.creds :: t.creds[r] == RewrittenRow(s.creds[r], r, rotation))
  }

  /** The winner's effect on the vault row and the wraps: exactly its recipients, at the next version. */
  ghost predicate BatchWon(s: State, t: State, rotation: Rotation) {
    && rotation.fromVersion == |s.history|
    && t.history == s.history + [rotation.newKey]
    && t.vault == Some(|t.history|)
    && (forall k | k in t.wraps ::
          k.0 == |t.history| && t.wraps[k].own && RecipientWrap(k.1, t.wraps[k].blob) in rotation.wraps)
    && (forall w | w in rotation.wraps :: (|t.history|, w.keyId) in t.wraps)
  }

  ghost predicate BatchLost(s: State, t: State, rotation: Rotation) {
    && rotation.fromVersion < |s.history|
    && t.history == s.history && t.vault == s.vault && t.wraps == s.wraps
  }

  /** What a rotation that reached its batch carries. */
  lemma CoveredRotation(s: State, o: OpId)
    requires OpsOk(s) && Enabled(s, CommitRotate(o))
    ensures CheckedOk(s, s.ops[o].op.rotation)
    ensures RotationOk(s, s.ops[o].op.rotation) && RecipientsOk(s, s.ops[o].op.rotation.wraps)
    ensures 1 <= s.ops[o].op.rotation.fromVersion <= |s.history|
    ensures PendingKey(s.ops[o].op) == Some(s.ops[o].op.rotation.newKey)
    ensures RotationOf(s.ops[o].op) == Some(s.ops[o].op.rotation)
  {
    assert OpOk(s, s.ops[o].op);
  }

  lemma WonWraps(s: State, rotation: Rotation)
    requires WrapsOk(s) && rotation.fromVersion == |s.history| && WinsCas(s, rotation)
    ensures RotateBatch(s, rotation).wraps == WrapRows(rotation.fromVersion + 1, rotation.wraps)
  {
    var rows := WrapRows(rotation.fromVersion + 1, rotation.wraps);
    assert forall k | k in s.wraps :: k.0 == rotation.fromVersion;
    RowsOfList(rotation.fromVersion + 1, rotation.wraps);
    hide WrapsOk, WrapRows, RewrittenRow;
    OldRowsGo(s.wraps, rows, rotation.fromVersion);
  }

  lemma OldRowsGo(kept: map<(nat, KeyId), WrapRow>, rows: map<(nat, KeyId), WrapRow>, version: nat)
    requires (forall k | k in kept :: k.0 == version) && forall k | k in rows :: k.0 == version + 1
    ensures (map k | k in kept + rows && k.0 != version :: (kept + rows)[k]) == rows
  {
  }

  lemma WonHistory(s: State, rotation: Rotation)
    requires HistoryOk(s) && WinsCas(s, rotation)
    ensures rotation.fromVersion == |s.history|
    ensures RotateBatch(s, rotation).history == s.history + [rotation.newKey]
    ensures RotateBatch(s, rotation).vault == Some(rotation.fromVersion + 1)
  {
    hide WrapRows;
  }

  lemma WonShape(s: State, rotation: Rotation)
    requires HistoryOk(s) && WrapsOk(s) && WinsCas(s, rotation)
    ensures BatchWon(s, RotateBatch(s, rotation), rotation)
  {
    hide HistoryOk, WrapsOk, WrapRows, RotateBatch;
    WonHistory(s, rotation);
    WonWraps(s, rotation);
    RowsOfList(rotation.fromVersion + 1, rotation.wraps);
  }

  lemma LostShape(s: State, rotation: Rotation)
    requires HistoryOk(s) && WrapsOk(s) && !WinsCas(s, rotation) && 1 <= rotation.fromVersion <= |s.history|
    ensures BatchLost(s, RotateBatch(s, rotation), rotation)
  {
    assert RotateBatch(s, rotation).wraps == s.wraps;
  }

  lemma FrameShape(s: State, o: OpId)
    requires Enabled(s, CommitRotate(o))
    ensures BatchFrame(s, CommitRotateStep(s, o), o, s.ops[o].op.rotation)
  {
    hide WrapRows;
  }

  lemma StepIsBatch(s: State, o: OpId)
    requires Enabled(s, CommitRotate(o))
    ensures
      var t, m := CommitRotateStep(s, o), RotateBatch(s, s.ops[o].op.rotation);
      t.wraps == m.wraps && t.history == m.history && t.vault == m.vault
  {
    hide RotateBatch;
  }

  lemma BatchShape(s: State, o: OpId)
    requires HistoryOk(s) && WrapsOk(s) && Enabled(s, CommitRotate(o))
    requires 1 <= s.ops[o].op.rotation.fromVersion <= |s.history|
    ensures
      var rotation := s.ops[o].op.rotation;
      var t := CommitRotateStep(s, o);
      && BatchFrame(s, t, o, rotation)
      && (WinsCas(s, rotation) ==> BatchWon(s, t, rotation))
      && (!WinsCas(s, rotation) ==> BatchLost(s, t, rotation))
  {
    hide RotateBatch, CommitRotateStep, HistoryOk, WrapsOk, BatchFrame;
    var rotation := s.ops[o].op.rotation;
    FrameShape(s, o);
    StepIsBatch(s, o);
    if WinsCas(s, rotation) {
      WonShape(s, rotation);
    } else {
      LostShape(s, rotation);
    }
  }

  lemma BatchGrows(s: State, t: State, o: OpId, rotation: Rotation)
    requires HistoryOk(s) && PendingOk(s) && BatchFrame(s, t, o, rotation)
    requires o in s.ops && PendingKey(s.ops[o].op) == Some(rotation.newKey)
    requires BatchWon(s, t, rotation) || BatchLost(s, t, rotation)
    ensures Grows(s, t)
  {
    forall k | Settled(s, k)
      ensures Settled(t, k)
    {
    }
  }

  /** The winner's key becomes the key of the next version; the loser's is discarded. */
  lemma BatchSettlesKey(s: State, t: State, o: OpId, rotation: Rotation)
    requires HistoryOk(s) && PendingOk(s) && BatchFrame(s, t, o, rotation)
    requires o in s.ops && PendingKey(s.ops[o].op) == Some(rotation.newKey)
    ensures BatchWon(s, t, rotation) ==> TrueKey(t, rotation.newKey, rotation.fromVersion + 1)
    ensures BatchLost(s, t, rotation) ==> Discarded(t, rotation.newKey)
    ensures BatchWon(s, t, rotation) || BatchLost(s, t, rotation) ==>
              HistoryOk(t) && PendingOk(t) && Settled(t, rotation.newKey)
  {
    hide RewrittenRow;
  }

  lemma NewKeyInRange(t: State, key: Key, version: nat)
    requires HistoryOk(t)
    requires (version == |t.history| && TrueKey(t, key, version)) || key !in t.history
    ensures InRange(t, key, version)
  {
  }

  lemma RewrittenRowOk(s: State, t: State, rotation: Rotation, r: CredRef)
    requires r in s.creds && RowOk(s, r, s.creds[r]) && Grows(s, t) && t.deks == s.deks
    requires r in rotation.deks ==> RewrappedOk(s, r, rotation)
    requires Settled(t, rotation.newKey) && InRange(t, rotation.newKey, rotation.fromVersion + 1)
    ensures RowOk(t, r, RewrittenRow(s.creds[r], r, rotation))
  {
    RowGrows(s, t, r, s.creds[r]);
    hide Settled, InRange;
  }

  lemma BatchCreds(s: State, t: State, o: OpId, rotation: Rotation)
    requires CredsOk(s) && Grows(s, t) && BatchFrame(s, t, o, rotation) && RotationOk(s, rotation)
    requires Settled(t, rotation.newKey) && InRange(t, rotation.newKey, rotation.fromVersion + 1)
    ensures CredsOk(t)
  {
    hide Settled, InRange, Grows, RowOk, RewrappedOk;
    forall r | r in t.creds
      ensures RowOk(t, r, t.creds[r])
    {
      RewrittenRowOk(s, t, rotation, r);
    }
  }

  lemma WonWrapsOk(s: State, t: State, rotation: Rotation)
    requires t.keys == s.keys && BatchWon(s, t, rotation) && Settled(t, rotation.newKey)
    requires WrapsFor(s, rotation.wraps, rotation.newKey) && RecipientsOk(s, rotation.wraps)
    ensures WrapsOk(t) && RecoveryOk(t)
  {
    var w :| w in rotation.wraps && w.keyId in s.keys && s.keys[w.keyId].kind.Recovery?;
    assert HoldsRecovery(t, w.keyId);
  }

  lemma BatchWraps(s: State, t: State, rotation: Rotation)
    requires WrapsOk(s) && RecoveryOk(s) && Grows(s, t) && t.keys == s.keys && Settled(t, rotation.newKey)
    requires BatchWon(s, t, rotation) || BatchLost(s, t, rotation)
    requires WrapsFor(s, rotation.wraps, rotation.newKey) && RecipientsOk(s, rotation.wraps)
    ensures WrapsOk(t) && RecoveryOk(t)
  {
    hide Grows, WrapsOk, RecoveryOk, WrapsFor, RecipientsOk, Settled;
    if BatchWon(s, t, rotation) {
      WonWrapsOk(s, t, rotation);
    } else {
      WrapsKept(s, t);
      RecoveryKept(s, t);
    }
  }

  lemma CommitKeeps(s: State, o: OpId)
    requires Inv(s) && Enabled(s, CommitRotate(o))
    ensures Grows(s, CommitRotateStep(s, o)) && Inv(CommitRotateStep(s, o))
  {
    var rotation := s.ops[o].op.rotation;
    var t := CommitRotateStep(s, o);
    CoveredRotation(s, o);
    BatchShape(s, o);
    BatchKeeps(s, t, o, rotation);
  }

  lemma BatchKeeps(s: State, t: State, o: OpId, rotation: Rotation)
    requires Inv(s) && BatchFrame(s, t, o, rotation)
    requires o in s.ops && PendingKey(s.ops[o].op) == Some(rotation.newKey)
    requires BatchWon(s, t, rotation) || BatchLost(s, t, rotation)
    requires RotationOk(s, rotation) && RecipientsOk(s, rotation.wraps)
    ensures Grows(s, t) && Inv(t)
  {
    hide Grows, HistoryOk, WrapsOk, RecoveryOk, CachesOk, PendingOk, UploadsOk, CredsOk, OpsOk, RotationOk,
      RecipientsOk;
    BatchGrows(s, t, o, rotation);
    BatchSettlesKey(s, t, o, rotation);
    NewKeyInRange(t, rotation.newKey, rotation.fromVersion + 1);
    BatchCreds(s, t, o, rotation);
    RotationWrapsFor(s, rotation);
    BatchWraps(s, t, rotation);
    OpsKept(s, t, o);
    BatchCaches(s, t, o, rotation);
  }

  lemma RotationWrapsFor(s: State, rotation: Rotation)
    requires RotationOk(s, rotation)
    ensures WrapsFor(s, rotation.wraps, rotation.newKey)
  {
  }

  lemma BatchCaches(s: State, t: State, o: OpId, rotation: Rotation)
    requires CachesOk(s) && UploadsOk(s) && Grows(s, t) && BatchFrame(s, t, o, rotation)
    ensures CachesOk(t) && UploadsOk(t)
  {
    hide Grows, UnlockedOk, RewrittenRow;
    assert CachesFrom(s, t);
    CachesKept(s, t);
  }

  // ---------------------------------------------------------------- the bootstrap batch

  ghost predicate BootFrame(s: State, t: State, o: OpId, boot: Bootstrap) {
    && s.history == [] && t.history == [boot.vaultKey] && t.vault == Some(1)
    && t.orgId == s.orgId && t.keys == s.keys && t.caches == s.caches && t.creds == s.creds
    && t.nextKey == s.nextKey && t.foreign == s.foreign && t.deks == s.deks && t.landed == s.landed
    && OthersKept(s, t, o) && o !in t.ops
    && (forall k | k in t.wraps ::
          k.0 == 1 && t.wraps[k].own && RecipientWrap(k.1, t.wraps[k].blob) in boot.wraps)
    && (forall w | w in boot.wraps :: (1, w.keyId) in t.wraps)
  }

  lemma BootShape(s: State, o: OpId)
    requires HistoryOk(s) && WrapsOk(s) && Enabled(s, CommitBootstrap(o)) && s.vault.None?
    ensures BootFrame(s, CommitBootstrapStep(s, o), o, s.ops[o].op.boot)
  {
    assert s.wraps == map[];
    RowsOfList(1, s.ops[o].op.boot.wraps);
    hide WrapsOk, WrapRows;
    BootstrapFrame(s, o);
  }

  lemma BootGrows(s: State, t: State, o: OpId, boot: Bootstrap)
    requires HistoryOk(s) && PendingOk(s) && BootFrame(s, t, o, boot)
    requires o in s.ops && PendingKey(s.ops[o].op) == Some(boot.vaultKey)
    ensures Grows(s, t) && HistoryOk(t) && PendingOk(t) && Settled(t, boot.vaultKey)
  {
    forall k | Settled(s, k)
      ensures Settled(t, k)
    {
    }
  }

  lemma BootWrapsOk(s: State, t: State, o: OpId, boot: Bootstrap)
    requires BootFrame(s, t, o, boot) && Settled(t, boot.vaultKey)
    requires WrapsFor(s, boot.wraps, boot.vaultKey) && RecipientsOk(s, boot.wraps)
    ensures WrapsOk(t) && RecoveryOk(t)
  {
    var w :| w in boot.wraps && w.keyId in s.keys && s.keys[w.keyId].kind.Recovery?;
    assert HoldsRecovery(t, w.keyId);
  }

  lemma BootKeeps(s: State, t: State, o: OpId, boot: Bootstrap)
    requires Inv(s) && BootFrame(s, t, o, boot)
    requires o in s.ops && PendingKey(s.ops[o].op) == Some(boot.vaultKey)
    requires WrapsFor(s, boot.wraps, boot.vaultKey) && RecipientsOk(s, boot.wraps)
    ensures Grows(s, t) && Inv(t)
  {
    hide CredsOk, OpsOk, PendingOk, HistoryOk, WrapsOk, RecoveryOk, Grows, UnlockedOk, WrapsFor, RecipientsOk, Settled;
    BootGrows(s, t, o, boot);
    BootWrapsOk(s, t, o, boot);
    OpsKept(s, t, o);
    CredsKept(s, t);
    assert CachesFrom(s, t);
    CachesKept(s, t);
    assert UploadsOk(t);
  }

  lemma CommitBootstrapKeeps(s: State, o: OpId)
    requires Inv(s) && Enabled(s, CommitBootstrap(o))
    ensures var t := CommitBootstrapStep(s, o); Grows(s, t) && Inv(t)
  {
    if s.vault.Some? {
      EndKeeps(s, o);
    } else {
      var boot := s.ops[o].op.boot;
      assert OpOk(s, s.ops[o].op);
      assert PendingKey(s.ops[o].op) == Some(boot.vaultKey);
      BootShape(s, o);
      BootKeeps(s, CommitBootstrapStep(s, o), o, boot);
    }
  }

  // ---------------------------------------------------------------- every step, every run

  predicate OfRotation(step: Step) {
    || step.ListDeks? || step.ListElsewhere? || step.Rewrap? || step.CheckRotate? || step.CheckCoverage?
    || step.CommitRotate? || step.ForgetCache?
  }

  predicate OfBootstrap(step: Step) {
    step.BeginBootstrap? || step.RegisterRecovery? || step.CheckBootstrap? || step.CommitBootstrap?
  }

  predicate OfServer(step: Step) {
    || step.RegisterKey? || step.DropDeviceWraps? || step.DeleteCredential? || step.CheckUpload? || step.InsertUpload?
    || step.CheckGrant? || step.InsertGrant?
  }

  lemma CachesOnlyShrink(s: State, device: Identity)
    requires Inv(s)
    ensures CachesFrom(s, s.(caches := s.caches - {device}))
  {
  }

  lemma ClientStepKeeps(s: State, step: Step)
    requires Inv(s) && Enabled(s, step)
    requires !OfRotation(step) && !OfBootstrap(step) && !OfServer(step)
    ensures Grows(s, Next(s, step)) && Inv(Next(s, step))
  {
    hide Inv, Grows, FetchedKey, SealStep, InsertGrantStep, RewrapStep, CommitRotateStep,
      RegisterRecoveryStep, CommitBootstrapStep;
    match step
    case ExpireCache(device) => CachesOnlyShrink(s, device); CacheStepKeeps(s, s.caches - {device});
    case DrawElsewhere => DrawElsewhereKeeps(s);
    case CacheElsewhere(device, key, version) => CacheElsewhereKeeps(s, device, key, version);
    case Crash(o) => EndKeeps(s, o);
    case Begin(o, device, orgId, task, useCache) => BeginKeeps(s, o, device, orgId, task, useCache);
    case FetchWrap(o, keyId) => FetchKeeps(s, o, keyId);
    case FetchElsewhere(o, key, version) => FetchElsewhereKeeps(s, o, key, version);
    case StoreCache(o, keep) => StoreCacheKeeps(s, o, keep);
    case Seal(o, id) => SealKeeps(s, o, id);
    case WrapForTarget(o) => WrapForTargetKeeps(s, o);
  }

  lemma RotateStepKeeps(s: State, step: Step)
    requires Inv(s) && Enabled(s, step)
    requires OfRotation(step)
    ensures Grows(s, Next(s, step)) && Inv(Next(s, step))
  {
    hide Inv, Grows, FetchedKey, SealStep, InsertGrantStep, RewrapStep, CommitRotateStep,
      RegisterRecoveryStep, CommitBootstrapStep;
    match step
    case ListDeks(o) => ListStepKeeps(s, o, Listing(s));
    case ListElsewhere(o) => ListStepKeeps(s, o, map[]);
    case Rewrap(o) => RewrapKeeps(s, o);
    case CheckRotate(o) => CheckRotateKeeps(s, o);
    case CheckCoverage(o) => CheckCoverageKeeps(s, o);
    case CommitRotate(o) => CommitKeeps(s, o);
    case ForgetCache(o) => ForgetCacheKeeps(s, o);
  }

  lemma BootstrapStepKeeps(s: State, step: Step)
    requires Inv(s) && Enabled(s, step)
    requires OfBootstrap(step)
    ensures Grows(s, Next(s, step)) && Inv(Next(s, step))
  {
    hide Inv, Grows, FetchedKey, SealStep, InsertGrantStep, RewrapStep, CommitRotateStep,
      RegisterRecoveryStep, CommitBootstrapStep;
    match step
    case BeginBootstrap(o, device, deviceKeyId, recovery) => BeginBootstrapKeeps(s, o, device, deviceKeyId, recovery);
    case RegisterRecovery(o, keyId) => RegisterRecoveryKeeps(s, o, keyId);
    case CheckBootstrap(o) => CheckBootstrapKeeps(s, o);
    case CommitBootstrap(o) => CommitBootstrapKeeps(s, o);
  }

  lemma ServerStepKeeps(s: State, step: Step)
    requires Inv(s) && Enabled(s, step)
    requires OfServer(step)
    ensures Grows(s, Next(s, step)) && Inv(Next(s, step))
  {
    hide Inv, Grows, FetchedKey, SealStep, InsertGrantStep, RewrapStep, CommitRotateStep,
      RegisterRecoveryStep, CommitBootstrapStep;
    match step
    case RegisterKey(keyId, row) => RegisterKeeps(s, keyId, row);
    case DropDeviceWraps(keyIds, revoked) => DropWrapsKeeps(s, keyIds, revoked);
    case DeleteCredential(cred) => DeleteKeeps(s, cred);
    case CheckUpload(o) => CheckUploadKeeps(s, o);
    case InsertUpload(o) => InsertUploadKeeps(s, o);
    case CheckGrant(o) => CheckGrantKeeps(s, o);
    case InsertGrant(o) => InsertGrantKeeps(s, o);
  }

  /** Every step of every command keeps the invariant, whatever the interleaving. */
  lemma StepKeeps(s: State, step: Step)
    requires Inv(s) && Enabled(s, step)
    ensures Grows(s, Next(s, step)) && Inv(Next(s, step))
  {
    if OfRotation(step) {
      RotateStepKeeps(s, step);
    } else if OfBootstrap(step) {
      BootstrapStepKeeps(s, step);
    } else if OfServer(step) {
      ServerStepKeeps(s, step);
    } else {
      ClientStepKeeps(s, step);
    }
  }

  /** The invariant holds after every run, and a run only grows what came before. */
  lemma {:induction false} RunKeeps(s: State, steps: seq<Step>)
    requires Inv(s) && CanRun(s, steps)
    ensures Inv(After(s, steps)) && Grows(s, After(s, steps))
    decreases |steps|
  {
    if steps != [] {
      var t := Next(s, steps[0]);
      StepKeeps(s, steps[0]);
      RunKeeps(t, steps[1..]);
      GrowsTransitive(s, t, After(s, steps));
    }
  }

  lemma InitOk(orgId: string)
    ensures Inv(Init(orgId))
  {
  }
}
