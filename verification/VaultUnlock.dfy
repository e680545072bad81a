/** What an unlock reads, what each write gives to whom, and which requests the checks let through. */
module VaultUnlock {
  import opened Wrappers
  import opened Crypto
  import opened VaultModel
  import opened VaultFrames
  import opened VaultInvariant
  import opened VaultPreserved
  import opened VaultTheorems
  import opened VaultRaces

  // ---------------------------------------------------------------- what an unlock reads

  /**
   * An unlock goes on exactly when its key has a wrap at the version the vault is at,
   * and then with the key and the version of that wrap.
   */
  lemma FetchReads(s: State, o: OpId, keyId: KeyId)
    requires Enabled(s, FetchWrap(o, keyId))
    requires Inv(s)
    ensures
      var t := Next(s, FetchWrap(o, keyId));
      && (o in t.ops <==> (|s.history|, keyId) in s.wraps)
      && (o in t.ops ==>
            var Command(device, orgId, Unlocking(task)) := s.ops[o];
            var row := s.wraps[(|s.history|, keyId)];
            t.ops[o] == Command(device, orgId, Fetched(task, Unlocked(row.blob.vaultKey, |s.history|, row.own))))
  {
    assert (|s.history|, keyId) in s.wraps ==> WrapOk(s, |s.history|, keyId, s.wraps[(|s.history|, keyId)]);
    hide WrapsOk, RecoveryOk, CachesOk, PendingOk, UploadsOk, CredsOk, OpsOk, Settled;
  }

  /** What every command gets that looks up the vault with that key. */
  ghost predicate Fetches(s: State, keyId: KeyId, u: Option<Unlocked>) {
    forall o | Enabled(s, FetchWrap(o, keyId)) ::
      var t := Next(s, FetchWrap(o, keyId));
      if u.None? then o !in t.ops
      else o in t.ops && t.ops[o].op == Fetched(s.ops[o].op.task, u.value)
  }

  /** A recipient fetches what its wrap holds. */
  lemma FetchesAsUnlocks(s: State, keyId: KeyId)
    requires Inv(s)
    ensures Fetches(s, keyId, UnlockAs(s, keyId))
  {
    forall o | Enabled(s, FetchWrap(o, keyId))
      ensures
        var t := Next(s, FetchWrap(o, keyId));
        if UnlockAs(s, keyId).None? then o !in t.ops
        else o in t.ops && t.ops[o].op == Fetched(s.ops[o].op.task, UnlockAs(s, keyId).value)
    {
      FetchReads(s, o, keyId);
      UnlocksItsWrap(s, keyId);
      hide Inv, Next, UnlockAs;
    }
  }

  lemma UnlocksItsWrap(s: State, keyId: KeyId)
    requires Inv(s)
    ensures UnlockAs(s, keyId).Some? <==> (|s.history|, keyId) in s.wraps
    ensures UnlockAs(s, keyId).Some? ==>
              var row := s.wraps[(|s.history|, keyId)];
              UnlockAs(s, keyId).value == Unlocked(row.blob.vaultKey, |s.history|, row.own)
  {
    assert (|s.history|, keyId) in s.wraps ==> WrapOk(s, |s.history|, keyId, s.wraps[(|s.history|, keyId)]);
    hide RecoveryOk, CachesOk, PendingOk, UploadsOk, CredsOk, OpsOk, Settled;
  }

  // ---------------------------------------------------------------- what the writes give

  predicate Listed(wraps: seq<RecipientWrap>, keyId: KeyId) {
    exists w :: w in wraps && w.keyId == keyId
  }

  /** After a winning rotation every listed recipient fetches the new key at the next version, and nobody else any. */
  lemma RotationServes(s: State, o: OpId, keyId: KeyId)
    requires Enabled(s, CommitRotate(o)) && s.vault == Some(s.ops[o].op.rotation.fromVersion)
    requires Inv(s)
    ensures
      var rotation := s.ops[o].op.rotation;
      Fetches(Next(s, CommitRotate(o)), keyId,
        if Listed(rotation.wraps, keyId) then Some(Unlocked(rotation.newKey, |s.history| + 1, true)) else None)
  {
    RotationInstalls(s, o, keyId, CommitRotateStep(s, o));
    hide Inv, CommitRotateStep, UnlockAs, Fetches, Listed, Grows;
    CommitKeeps(s, o);
    FetchesAsUnlocks(CommitRotateStep(s, o), keyId);
  }

  lemma RotationInstalls(s: State, o: OpId, keyId: KeyId, t: State)
    requires Enabled(s, CommitRotate(o)) && s.vault == Some(s.ops[o].op.rotation.fromVersion)
    requires t == CommitRotateStep(s, o)
    requires Inv(s)
    ensures
      var rotation := s.ops[o].op.rotation;
      UnlockAs(t, keyId)
        == if Listed(rotation.wraps, keyId) then Some(Unlocked(rotation.newKey, |s.history| + 1, true)) else None
  {
    hide WrapsOk, RecoveryOk, CachesOk, PendingOk, UploadsOk, CredsOk, OpsOk, CommitRotateStep, UnlockAs, Enabled;
    assert s.vault == Some(|s.history|);
    hide Inv;
    RotationInstallsRecipients(s, o, keyId);
  }

  /** After the bootstrap that wins both its recipients fetch the first key, and nobody else anything. */
  lemma BootstrapServes(s: State, o: OpId, keyId: KeyId)
    requires Enabled(s, CommitBootstrap(o)) && s.vault.None?
    requires Inv(s)
    ensures
      var boot := s.ops[o].op.boot;
      Fetches(Next(s, CommitBootstrap(o)), keyId,
        if Listed(boot.wraps, keyId) then Some(Unlocked(boot.vaultKey, 1, true)) else None)
  {
    BootstrapInstalls(s, o, keyId, CommitBootstrapStep(s, o));
    hide Inv, CommitBootstrapStep, UnlockAs, Fetches, Listed, Grows;
    CommitBootstrapKeeps(s, o);
    FetchesAsUnlocks(CommitBootstrapStep(s, o), keyId);
  }

  lemma BootstrapInstalls(s: State, o: OpId, keyId: KeyId, t: State)
    requires Enabled(s, CommitBootstrap(o)) && s.vault.None? && t == CommitBootstrapStep(s, o)
    requires Inv(s)
    ensures
      var boot := s.ops[o].op.boot;
      UnlockAs(t, keyId) == if Listed(boot.wraps, keyId) then Some(Unlocked(boot.vaultKey, 1, true)) else None
  {
    hide HistoryOk, WrapsOk, RecoveryOk, CachesOk, PendingOk, UploadsOk, CredsOk, UnlockAs, Listed, WrapRows, WrapsFor;
    assert OpOk(s, s.ops[o].op);
    NoWrapsYet(s);
    hide Inv;
    InstalledRows(s, s.ops[o].op.boot, keyId, t);
  }

  lemma InstalledRows(s: State, boot: Bootstrap, keyId: KeyId, t: State)
    requires WrapsFor(s, boot.wraps, boot.vaultKey)
    requires t.vault == Some(1) && t.keys == s.keys && t.wraps == WrapRows(1, boot.wraps)
    ensures UnlockAs(t, keyId) == if Listed(boot.wraps, keyId) then Some(Unlocked(boot.vaultKey, 1, true)) else None
  {
    RowsOfList(1, boot.wraps);
    hide WrapRows;
    if (1, keyId) in t.wraps {
      var w := RecipientWrap(keyId, t.wraps[(1, keyId)].blob);
      assert w in boot.wraps && w.keyId == keyId;
    }
  }

  lemma NoWrapsYet(s: State)
    requires Inv(s) && s.vault.None?
    ensures s.wraps == map[]
  {
    hide RecoveryOk, CachesOk, PendingOk, UploadsOk, CredsOk, OpsOk, Settled;
    assert s.history == [];
    assert forall k :: k !in s.wraps;
  }

  /** A grant at the current version to a key without a wrap gives it what was wrapped; any other changes nothing. */
  lemma GrantServes(s: State, o: OpId, keyId: KeyId)
    requires Enabled(s, InsertGrant(o))
    requires Inv(s)
    ensures
      var GrantChecked(target, version, wrapped, own) := s.ops[o].op;
      var gives := version == |s.history| && (version, target) !in s.wraps && keyId == target;
      Fetches(InsertGrantStep(s, o), keyId,
        if gives then Some(Unlocked(wrapped.vaultKey, version, own)) else UnlockAs(s, keyId))
  {
    GrantInstalls(s, o, keyId);
    hide Inv, InsertGrantStep, UnlockAs, Fetches, Grows;
    InsertGrantKeeps(s, o);
    FetchesAsUnlocks(InsertGrantStep(s, o), keyId);
  }

  lemma GrantInstalls(s: State, o: OpId, keyId: KeyId)
    requires Enabled(s, InsertGrant(o))
    requires Inv(s)
    ensures
      var GrantChecked(target, version, wrapped, own) := s.ops[o].op;
      var gives := version == |s.history| && (version, target) !in s.wraps && keyId == target;
      UnlockAs(InsertGrantStep(s, o), keyId)
        == if gives then Some(Unlocked(wrapped.vaultKey, version, own)) else UnlockAs(s, keyId)
  {
    hide WrapsOk, RecoveryOk, CachesOk, PendingOk, UploadsOk, CredsOk, Settled, TrueKey;
    assert OpOk(s, s.ops[o].op);
    hide OpsOk, OpOk;
  }

  /** Dropping a device's wraps takes its unlock away, revoked or not, and nobody else's. */
  lemma DropServes(s: State, keyIds: set<KeyId>, revoked: set<KeyId>, keyId: KeyId)
    requires Enabled(s, DropDeviceWraps(keyIds, revoked))
    requires Inv(s)
    ensures
      var t := Next(s, DropDeviceWraps(keyIds, revoked));
      && Fetches(t, keyId, if keyId in keyIds then None else UnlockAs(s, keyId))
      && (keyId in t.keys <==> keyId in s.keys)
      && (keyId in s.keys ==> (t.keys[keyId].revoked <==> s.keys[keyId].revoked || keyId in revoked))
  {
    DropTakes(s, keyIds, revoked, keyId);
    hide Inv, UnlockAs, Fetches, Grows, Next;
    DropWrapsKeeps(s, keyIds, revoked);
    FetchesAsUnlocks(Next(s, DropDeviceWraps(keyIds, revoked)), keyId);
  }

  lemma DropTakes(s: State, keyIds: set<KeyId>, revoked: set<KeyId>, keyId: KeyId)
    requires Enabled(s, DropDeviceWraps(keyIds, revoked))
    ensures
      var t := Next(s, DropDeviceWraps(keyIds, revoked));
      && UnlockAs(t, keyId) == (if keyId in keyIds then None else UnlockAs(s, keyId))
      && (keyId in t.keys <==> keyId in s.keys)
      && (keyId in s.keys ==> (t.keys[keyId].revoked <==> s.keys[keyId].revoked || keyId in revoked))
  {
  }

  // ---------------------------------------------------------------- what the checks let through

  /** Registered, and a device key or one of this organization. */
  predicate MayHold(s: State, keyId: KeyId) {
    keyId in s.keys && (s.keys[keyId].kind == Device || !s.keys[keyId].foreign)
  }

  /** No key twice, each of them one that may hold a wrap, and a recovery key among them. */
  ghost predicate MayReceive(s: State, wraps: seq<RecipientWrap>) {
    && (forall i, j :: 0 <= i < |wraps| && 0 <= j < |wraps| && wraps[i].keyId == wraps[j].keyId ==> i == j)
    && (forall i :: 0 <= i < |wraps| ==> MayHold(s, wraps[i].keyId))
    && (exists i :: 0 <= i < |wraps| && wraps[i].keyId in s.keys && s.keys[wraps[i].keyId].kind == Recovery)
  }

  lemma AllowedMeans(s: State, wraps: seq<RecipientWrap>)
    ensures RecipientsAllowed(s, wraps) <==> MayReceive(s, wraps)
  {
    if RecipientsAllowed(s, wraps) {
      forall i | 0 <= i < |wraps|
        ensures MayHold(s, wraps[i].keyId)
      {
        assert wraps[i] in wraps;
      }
      var w :| w in wraps && w.keyId in s.keys && s.keys[w.keyId].kind.Recovery?;
      var i :| 0 <= i < |wraps| && wraps[i] == w;
    }
    if MayReceive(s, wraps) {
      forall w | w in wraps
        ensures w.keyId in s.keys && !s.keys[w.keyId].ForeignOrgKey()
      {
        var i :| 0 <= i < |wraps| && wraps[i] == w;
        assert MayHold(s, wraps[i].keyId);
      }
      var i :| 0 <= i < |wraps| && wraps[i].keyId in s.keys && s.keys[wraps[i].keyId].kind == Recovery;
      assert wraps[i] in wraps;
    }
  }

  /** The command is past its check, with what it came with. */
  predicate Passes(s: State, t: State, o: OpId, op: Op)
    requires o in s.ops
  {
    o in t.ops && t.ops[o] == Command(s.ops[o].device, s.ops[o].orgId, op)
  }

  /** An upload passes at the current version, or where there is no vault. */
  lemma UploadAdmitted(s: State, o: OpId)
    requires Enabled(s, CheckUpload(o))
    requires Inv(s)
    ensures
      var UploadSent(cred, envelope, own) := s.ops[o].op;
      var t := Next(s, CheckUpload(o));
      if s.history == [] || envelope.vaultVersion == |s.history|
      then Passes(s, t, o, UploadChecked(cred, envelope, own)) else o !in t.ops
  {
    hide WrapsOk, RecoveryOk, CachesOk, PendingOk, UploadsOk, CredsOk, OpsOk;
  }

  /** A grant passes for a key that may hold a wrap and is not revoked, once there is a vault. */
  lemma GrantAdmitted(s: State, o: OpId)
    requires Enabled(s, CheckGrant(o))
    requires Inv(s)
    ensures
      var GrantSent(target, version, wrapped, own) := s.ops[o].op;
      var t := Next(s, CheckGrant(o));
      if MayHold(s, target) && !s.keys[target].revoked && s.history != []
      then Passes(s, t, o, GrantChecked(target, version, wrapped, own)) else o !in t.ops
  {
    hide WrapsOk, RecoveryOk, CachesOk, PendingOk, UploadsOk, CredsOk, OpsOk;
  }

  /** A rotation passes its first check with such recipients at the current version. */
  lemma RotateAdmitted(s: State, o: OpId)
    requires Enabled(s, CheckRotate(o))
    requires Inv(s)
    ensures
      var rotation := s.ops[o].op.rotation;
      var t := Next(s, CheckRotate(o));
      if MayReceive(s, rotation.wraps) && s.history != [] && rotation.fromVersion == |s.history|
      then Passes(s, t, o, RotatePrechecked(rotation)) else o !in t.ops
  {
    hide WrapsOk, RecoveryOk, CachesOk, PendingOk, UploadsOk, CredsOk, OpsOk, RecipientsAllowed, MayReceive;
    AllowedMeans(s, s.ops[o].op.rotation.wraps);
  }

  /** And its second when its list is exactly the stored credentials. */
  lemma CoverageAdmitted(s: State, o: OpId)
    requires Enabled(s, CheckCoverage(o))
    ensures
      var rotation := s.ops[o].op.rotation;
      var t := Next(s, CheckCoverage(o));
      if forall r :: r in s.creds <==> r in rotation.deks
      then Passes(s, t, o, RotateCovered(rotation)) else o !in t.ops
  {
  }

  lemma BootstrapAdmitted(s: State, o: OpId)
    requires Enabled(s, CheckBootstrap(o))
    ensures
      var boot := s.ops[o].op.boot;
      var t := Next(s, CheckBootstrap(o));
      if MayReceive(s, boot.wraps) then Passes(s, t, o, BootChecked(boot)) else o !in t.ops
  {
    hide RecipientsAllowed, MayReceive;
    AllowedMeans(s, s.ops[o].op.boot.wraps);
  }

  /** What the insert and the deletion do to each row. */
  lemma RowsWritten(s: State, step: Step, r: CredRef)
    requires Enabled(s, step) && (step.InsertUpload? || step.DeleteCredential?)
    ensures
      var t := Next(s, step);
      if step.InsertUpload?
      then var UploadChecked(cred, envelope, _) := s.ops[step.o].op;
        && (r in t.creds <==> r in s.creds || r == cred)
        && (r in t.creds ==> t.creds[r] == if r == cred then envelope else s.creds[r])
      else
        && (r in t.creds <==> r in s.creds && r != step.cred)
        && (r in t.creds ==> t.creds[r] == s.creds[r])
  {
  }

  // ---------------------------------------------------------------- commands nobody disturbs

  /** Everything is as it was but the wraps, and those of the keys other than `target`. */
  ghost predicate GrantDone(s: State, t: State, target: KeyId, u: Unlocked) {
    && t == s.(wraps := t.wraps)
    && (forall k :: UnlockAs(t, k) == if k == target then Some(u) else UnlockAs(s, k))
    && Fetches(t, target, Some(u))
  }

  lemma GrantSends(s: State, o: OpId, device: Identity, org: string, target: KeyId, u: Unlocked)
    requires o !in s.ops && target in s.keys
    ensures
      var ready := Running(s, o, device, org, Ready(Grant(target), u));
      var wrapped := AgeBlob(s.keys[target].publicKey, u.vaultKey);
      && Enabled(ready, WrapForTarget(o))
      && Next(ready, WrapForTarget(o))
      == Running(s, o, device, org, GrantSent(target, u.vaultVersion, wrapped, u.own))
  {
    var wrapped := AgeBlob(s.keys[target].publicKey, u.vaultKey);
    AdvanceRunning(s, o, device, org, Ready(Grant(target), u), GrantSent(target, u.vaultVersion, wrapped, u.own));
  }

  lemma GrantChecks(
    s: State, o: OpId, device: Identity, org: string, target: KeyId, version: nat, b: AgeBlob, own: bool)
    requires MayHold(s, target) && !s.keys[target].revoked && s.vault.Some?
    ensures
      var sent := Running(s, o, device, org, GrantSent(target, version, b, own));
      && Enabled(sent, CheckGrant(o))
      && Next(sent, CheckGrant(o)) == Running(s, o, device, org, GrantChecked(target, version, b, own))
  {
    AdvanceRunning(s, o, device, org, GrantSent(target, version, b, own), GrantChecked(target, version, b, own));
  }

  lemma GrantLands(s: State, o: OpId, device: Identity, org: string, target: KeyId, u: Unlocked)
    requires o !in s.ops && target in s.keys && s.vault == Some(u.vaultVersion) && (u.vaultVersion, target) !in s.wraps
    ensures
      var wrapped := AgeBlob(s.keys[target].publicKey, u.vaultKey);
      var checked := Running(s, o, device, org, GrantChecked(target, u.vaultVersion, wrapped, u.own));
      var t := Next(checked, InsertGrant(o));
      && Enabled(checked, InsertGrant(o))
      && t == s.(wraps := s.wraps[(u.vaultVersion, target) := WrapRow(wrapped, u.own)])
      && (forall k :: UnlockAs(t, k) == if k == target then Some(u) else UnlockAs(s, k))
  {
    var wrapped := AgeBlob(s.keys[target].publicKey, u.vaultKey);
    var checked := Running(s, o, device, org, GrantChecked(target, u.vaultVersion, wrapped, u.own));
    assert checked.ops - {o} == s.ops;
  }

  /**
   * A grant that nobody disturbs, by a device with a key cached at the current version, to
   * a key that may hold a wrap and has none: that key then unlocks to the same key, the
   * true one if the device's is, and nothing else is touched.
   */
  lemma GrantCompletes(orgId: string, s: State, o: OpId, device: Identity, org: string, target: KeyId)
    returns (t: State)
    requires Reachable(orgId, s) && o !in s.ops && HoldsCurrentVersion(s, device)
    requires MayHold(s, target) && !s.keys[target].revoked && (|s.history|, target) !in s.wraps
    ensures Reachable(orgId, t) && GrantDone(s, t, target, s.caches[device])
    ensures s.caches[device].own ==> TrueKey(t, s.caches[device].vaultKey, |t.history|)
  {
    ReachableOk(orgId, s);
    CachedIsTrue(s, device);
    assert s.vault == Some(|s.history|);
    hide Reachable, Inv, UnlockAs, Fetches;
    t := GrantReaches(orgId, s, o, device, org, target);
    ReachableOk(orgId, t);
    FetchesAsUnlocks(t, target);
  }

  lemma GrantReaches(orgId: string, s: State, o: OpId, device: Identity, org: string, target: KeyId)
    returns (t: State)
    requires Reachable(orgId, s) && o !in s.ops && device in s.caches && s.vault == Some(s.caches[device].vaultVersion)
    requires MayHold(s, target) && !s.keys[target].revoked && (s.caches[device].vaultVersion, target) !in s.wraps
    ensures Reachable(orgId, t) && t == s.(wraps := t.wraps)
    ensures forall k :: UnlockAs(t, k) == if k == target then Some(s.caches[device]) else UnlockAs(s, k)
  {
    hide Reachable, Next, Enabled, UnlockAs, Running;
    var u, wrapped := s.caches[device], AgeBlob(s.keys[target].publicKey, s.caches[device].vaultKey);
    BeginsFromCache(s, o, device, org, Grant(target));
    GrantSends(s, o, device, org, target, u);
    GrantChecks(s, o, device, org, target, u.vaultVersion, wrapped, u.own);
    GrantLands(s, o, device, org, target, u);
    Reach(orgId, s, Begin(o, device, org, Grant(target), true));
    Reach(orgId, Running(s, o, device, org, Ready(Grant(target), u)), WrapForTarget(o));
    Reach(orgId, Running(s, o, device, org, GrantSent(target, u.vaultVersion, wrapped, u.own)), CheckGrant(o));
    var checked := Running(s, o, device, org, GrantChecked(target, u.vaultVersion, wrapped, u.own));
    Reach(orgId, checked, InsertGrant(o));
    t := Next(checked, InsertGrant(o));
  }

  lemma BeginsFromCache(s: State, o: OpId, device: Identity, org: string, task: Task)
    requires o !in s.ops && device in s.caches
    ensures Enabled(s, Begin(o, device, org, task, true))
    ensures Next(s, Begin(o, device, org, task, true)) == Running(s, o, device, org, Ready(task, s.caches[device]))
  {
  }

  /** The state in which such a bootstrap has registered its recovery key. */
  function WithRecovery(s: State, keyId: KeyId, recovery: Identity): State {
    Drawn(s).(keys := s.keys[keyId := KeyRow(PublicKey(recovery), Recovery, false, false)])
  }

  function BothWraps(s: State, device: Identity, deviceKeyId: KeyId, recovery: Identity, keyId: KeyId): Bootstrap {
    Bootstrap(s.nextKey, [
      RecipientWrap(deviceKeyId, AgeBlob(PublicKey(device), s.nextKey)),
      RecipientWrap(keyId, AgeBlob(PublicKey(recovery), s.nextKey))])
  }

  lemma RecoveryRegisters(
    s: State, o: OpId, device: Identity, deviceKeyId: KeyId, recovery: Identity, keyId: KeyId, org: string)
    requires keyId !in s.keys
    ensures
      var minted := Running(Drawn(s), o, device, org, BootMinted(s.nextKey, deviceKeyId, PublicKey(device), recovery));
      && Enabled(minted, RegisterRecovery(o, keyId))
      && Next(minted, RegisterRecovery(o, keyId))
      == Running(WithRecovery(s, keyId, recovery), o, device, org,
           BootSent(BothWraps(s, device, deviceKeyId, recovery, keyId)))
  {
    AdvanceRunning(s, o, device, org, BootMinted(s.nextKey, deviceKeyId, PublicKey(device), recovery),
      BootSent(BothWraps(s, device, deviceKeyId, recovery, keyId)));
  }

  lemma BothReceive(s: State, device: Identity, deviceKeyId: KeyId, recovery: Identity, keyId: KeyId)
    requires MayHold(s, deviceKeyId) && keyId !in s.keys
    ensures MayReceive(WithRecovery(s, keyId, recovery), BothWraps(s, device, deviceKeyId, recovery, keyId).wraps)
    ensures forall k :: Listed(BothWraps(s, device, deviceKeyId, recovery, keyId).wraps, k) <==>
                        k == deviceKeyId || k == keyId
  {
    var wraps := BothWraps(s, device, deviceKeyId, recovery, keyId).wraps;
    assert wraps[0] in wraps && wraps[1] in wraps;
    assert wraps[1].keyId in WithRecovery(s, keyId, recovery).keys;
  }

  lemma BootstrapChecks(s: State, o: OpId, device: Identity, org: string, boot: Bootstrap)
    requires MayReceive(s, boot.wraps)
    ensures
      var sent := Running(s, o, device, org, BootSent(boot));
      && Enabled(sent, CheckBootstrap(o))
      && Next(sent, CheckBootstrap(o)) == Running(s, o, device, org, BootChecked(boot))
  {
    AdvanceRunning(s, o, device, org, BootSent(boot), BootChecked(boot));
    AllowedMeans(s, boot.wraps);
    var sent := Running(s, o, device, org, BootSent(boot));
    assert RecipientsAllowed(sent, boot.wraps) by { SameAllowed(s, sent, boot.wraps); }
  }

  lemma SameAllowed(s: State, t: State, wraps: seq<RecipientWrap>)
    requires s.keys == t.keys && RecipientsAllowed(s, wraps)
    ensures RecipientsAllowed(t, wraps)
  {
  }

  lemma BootstrapReaches(
    orgId: string, s: State, o: OpId, device: Identity, deviceKeyId: KeyId, recovery: Identity, keyId: KeyId)
    returns (checked: State)
    requires Reachable(orgId, s) && o !in s.ops && MayHold(s, deviceKeyId) && keyId !in s.keys
    requires s.keys[deviceKeyId].publicKey == PublicKey(device)
    ensures checked == Running(WithRecovery(s, keyId, recovery), o, device, s.orgId,
                         BootChecked(BothWraps(s, device, deviceKeyId, recovery, keyId)))
    ensures Reachable(orgId, checked)
  {
    hide Reachable, MayReceive, BothWraps, WithRecovery;
    var op := BootMinted(s.nextKey, deviceKeyId, PublicKey(device), recovery);
    var minted := Running(Drawn(s), o, device, s.orgId, op);
    ReachNext(orgId, s, BeginBootstrap(o, device, deviceKeyId, recovery), minted);
    hide Next, Enabled, Running;
    RecoveryRegisters(s, o, device, deviceKeyId, recovery, keyId, s.orgId);
    Reach(orgId, minted, RegisterRecovery(o, keyId));
    BothReceive(s, device, deviceKeyId, recovery, keyId);
    var m, boot := WithRecovery(s, keyId, recovery), BothWraps(s, device, deviceKeyId, recovery, keyId);
    BootstrapChecks(m, o, device, s.orgId, boot);
    Reach(orgId, Running(m, o, device, s.orgId, BootSent(boot)), CheckBootstrap(o));
    checked := Running(m, o, device, s.orgId, BootChecked(boot));
  }

  /**
   * A bootstrap that nobody disturbs, where there is no vault: it makes version 1, whose
   * new key the device's key and the new recovery key unlock, and nobody else.
   */
  lemma BootstrapCompletes(
    orgId: string, s: State, o: OpId, device: Identity, deviceKeyId: KeyId, recovery: Identity, keyId: KeyId)
    returns (t: State)
    requires Reachable(orgId, s) && o !in s.ops && MayHold(s, deviceKeyId) && keyId !in s.keys
    requires s.keys[deviceKeyId].publicKey == PublicKey(device) && s.vault.None?
    ensures Reachable(orgId, t) && t.vault == Some(1) && t.history == [s.nextKey]
    ensures t.creds == s.creds && t.ops == s.ops && t.keys == WithRecovery(s, keyId, recovery).keys
    ensures Fetches(t, deviceKeyId, Some(Unlocked(s.nextKey, 1, true)))
    ensures Fetches(t, keyId, Some(Unlocked(s.nextKey, 1, true)))
    ensures forall k | k != deviceKeyId && k != keyId :: Fetches(t, k, None)
  {
    hide Reachable, Inv, CommitBootstrapStep, Fetches, Listed;
    var checked := BootstrapReaches(orgId, s, o, device, deviceKeyId, recovery, keyId);
    BothReceive(s, device, deviceKeyId, recovery, keyId);
    ReachableOk(orgId, checked);
    Reach(orgId, checked, CommitBootstrap(o));
    t := Next(checked, CommitBootstrap(o));
    BootstrapFrame(checked, o);
    assert checked.ops - {o} == s.ops;
    BootstrapServes(checked, o, deviceKeyId);
    BootstrapServes(checked, o, keyId);
    forall k | k != deviceKeyId && k != keyId
      ensures Fetches(t, k, None)
    {
      BootstrapServes(checked, o, k);
    }
  }
}
