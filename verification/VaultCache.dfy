/** The keychain entry a device keeps between commands, and which keys its commands end up with. */
module VaultCache {
  import opened Wrappers
  import opened Crypto
  import opened CredentialCipher
  import opened VaultModel
  import opened VaultFrames
  import opened VaultInvariant
  import opened VaultPreserved
  import opened VaultHealth
  import opened VaultTheorems

  /** The vault key a command works with. */
  function HeldKey(op: Op): Option<Unlocked> {
    match op
    case Fetched(_, vault) => Some(vault)
    case Ready(_, vault) => Some(vault)
    case RotateListed(vault, _, _, _) => Some(vault)
    case RotateSent(r) => Some(r.vault)
    case RotatePrechecked(r) => Some(r.vault)
    case RotateCovered(r) => Some(r.vault)
    case _ => None
  }

  // ---------------------------------------------------------------- the entry of one device

  function Entry(s: State, device: Identity): Option<Unlocked> {
    if device in s.caches then Some(s.caches[device]) else None
  }

  /** The step writes or clears the keychain entry of `device`. */
  predicate Touches(s: State, step: Step, device: Identity)
    requires Enabled(s, step)
  {
    match step
    case ExpireCache(d) => d == device
    case CacheElsewhere(d, _, _) => d == device
    case StoreCache(o, keep) => keep && s.ops[o].device == device
    case ForgetCache(o) => s.ops[o].device == device
    case _ => false
  }

  /** What such a step leaves in the entry. */
  function Leaves(s: State, step: Step): Option<Unlocked>
    requires Enabled(s, step)
  {
    match step
    case CacheElsewhere(_, vaultKey, vaultVersion) => Some(Brought(s, vaultKey, vaultVersion))
    case StoreCache(o, _) => Some(s.ops[o].op.vault)
    case _ => None
  }

  predicate OfCaches(step: Step) {
    step.ExpireCache? || step.CacheElsewhere? || step.StoreCache? || step.ForgetCache?
  }

  lemma KeychainEntry(s: State, step: Step, device: Identity)
    requires Enabled(s, step) && OfCaches(step)
    ensures Entry(Next(s, step), device) == if Touches(s, step, device) then Leaves(s, step) else Entry(s, device)
  {
    match step
    case ExpireCache(_) =>
    case CacheElsewhere(_, _, _) =>
    case StoreCache(_, _) =>
    case ForgetCache(_) =>
  }

  lemma TableStepsKeepCaches(s: State, step: Step)
    requires step.RegisterKey? || step.DropDeviceWraps? || step.DeleteCredential? || step.InsertUpload?
    requires Enabled(s, step)
    ensures Next(s, step).caches == s.caches
  {
    match step
    case RegisterKey(_, _) =>
    case DropDeviceWraps(_, _) =>
    case DeleteCredential(_) =>
    case InsertUpload(_) =>
  }

  lemma CommitKeepsCaches(s: State, o: OpId)
    requires Enabled(s, CommitRotate(o))
    ensures CommitRotateStep(s, o).caches == s.caches
  {
    hide WrapRows, WinsCas, RewrittenRow;
  }

  lemma WrapStepsKeepCaches(s: State, step: Step)
    requires step.InsertGrant? || step.CommitRotate? || step.RegisterRecovery? || step.CommitBootstrap?
    requires Enabled(s, step)
    ensures Next(s, step).caches == s.caches
  {
    hide WrapVaultKey, CommitBootstrapStep, CommitRotateStep;
    if step.CommitRotate? {
      CommitKeepsCaches(s, step.o);
    } else if step.CommitBootstrap? {
      BootstrapFrame(s, step.o);
    }
  }

  lemma OtherStepsKeepCaches(s: State, step: Step)
    requires Enabled(s, step) && !OfCaches(step)
    ensures Next(s, step).caches == s.caches
  {
    hide Next;
    if Talks(step) {
      TalkKeepsTables(s, step);
    } else if step.RegisterKey? || step.DropDeviceWraps? || step.DeleteCredential? || step.InsertUpload? {
      TableStepsKeepCaches(s, step);
    } else {
      WrapStepsKeepCaches(s, step);
    }
  }

  lemma StepEntry(s: State, step: Step, device: Identity)
    requires Enabled(s, step)
    ensures Entry(Next(s, step), device) == if Touches(s, step, device) then Leaves(s, step) else Entry(s, device)
  {
    hide Next, Leaves;
    if OfCaches(step) {
      KeychainEntry(s, step, device);
    } else {
      OtherStepsKeepCaches(s, step);
    }
  }

  /** A command of `device` that may use the keychain starts from the entry, and has to fetch when there is none. */
  ghost predicate StartsFrom(s: State, p: OpId, device: Identity, task: Task, entry: Option<Unlocked>) {
    p !in s.ops && forall orgId ::
    Next(s, Begin(p, device, orgId, task, true)).ops[p].op
      == match entry case None => Unlocking(task) case Some(u) => Ready(task, u)
  }

  /** What the last step of the run that touched the entry left in it; `entry` when none did. */
  ghost function LastEntry(s: State, steps: seq<Step>, device: Identity, entry: Option<Unlocked>): Option<Unlocked>
    requires CanRun(s, steps)
    decreases |steps|
  {
    if steps == [] then entry
    else
      var left := if Touches(s, steps[0], device) then Leaves(s, steps[0]) else entry;
      LastEntry(Next(s, steps[0]), steps[1..], device, left)
  }

  lemma {:induction false} RunEntry(s: State, steps: seq<Step>, device: Identity)
    requires CanRun(s, steps)
    ensures Entry(After(s, steps), device) == LastEntry(s, steps, device, Entry(s, device))
    decreases |steps|
  {
    hide Next, Entry, Touches, Leaves;
    if steps != [] {
      StepEntry(s, steps[0], device);
      RunEntry(Next(s, steps[0]), steps[1..], device);
    }
  }

  // ---------------------------------------------------------------- which keys are this organization's

  /**
   * In every reachable state a cached key, a key a command works with and a stored wrap
   * hold the true key of their version if and only if they came from this organization:
   * fetched from one of its own wraps, left by a device that had, or wrapped from one.
   */
  lemma HeldKeysExactly(orgId: string, steps: seq<Step>)
    requires CanRun(Init(orgId), steps)
    ensures
      var s := After(Init(orgId), steps);
      && (forall d | d in s.caches :: s.caches[d].own <==> TrueKey(s, s.caches[d].vaultKey, s.caches[d].vaultVersion))
      && (forall o, u | o in s.ops && HeldKey(s.ops[o].op) == Some(u) ::
            u.own <==> TrueKey(s, u.vaultKey, u.vaultVersion))
      && (forall k | k in s.wraps :: s.wraps[k].own <==> TrueKey(s, s.wraps[k].blob.vaultKey, k.0))
  {
    InitOk(orgId);
    hide Inv, CanRun, After, Init, TrueKey, HeldKey;
    RunKeeps(Init(orgId), steps);
    HeldExactly(After(Init(orgId), steps));
    WrapsExactly(After(Init(orgId), steps));
  }

  lemma HeldExactly(s: State)
    requires Inv(s)
    ensures forall d | d in s.caches ::
              s.caches[d].own <==> TrueKey(s, s.caches[d].vaultKey, s.caches[d].vaultVersion)
    ensures forall o, u | o in s.ops && HeldKey(s.ops[o].op) == Some(u) ::
              u.own <==> TrueKey(s, u.vaultKey, u.vaultVersion)
  {
    hide HistoryOk, WrapsOk, RecoveryOk, PendingOk, UploadsOk, CredsOk, OpsOk, TrueKey, HeldKey, Settled;
    forall o, u | o in s.ops && HeldKey(s.ops[o].op) == Some(u)
      ensures u.own <==> TrueKey(s, u.vaultKey, u.vaultVersion)
    {
      HeldIsOk(s, o);
    }
  }

  lemma WrapsExactly(s: State)
    requires Inv(s)
    ensures forall k | k in s.wraps :: s.wraps[k].own <==> TrueKey(s, s.wraps[k].blob.vaultKey, k.0)
  {
    hide HistoryOk, RecoveryOk, CachesOk, PendingOk, UploadsOk, CredsOk, OpsOk, Settled;
    forall k | k in s.wraps
      ensures s.wraps[k].own <==> TrueKey(s, s.wraps[k].blob.vaultKey, k.0)
    {
      assert WrapOk(s, k.0, k.1, s.wraps[k]);
    }
  }

  lemma HeldIsOk(s: State, o: OpId)
    requires Inv(s) && o in s.ops && HeldKey(s.ops[o].op).Some?
    ensures UnlockedOk(s, HeldKey(s.ops[o].op).value)
  {
    assert OpOk(s, s.ops[o].op);
    hide UnlockedOk, WrapsFor, RewrappedOk, ListedOk, RecipientsOk;
  }

  /**
   * The key a command starts with from the keychain, after any run from any state, is
   * the true key of its version if and only if what the run last left in the device's
   * entry came from this organization.
   */
  lemma StartsWithTrueKey(s: State, steps: seq<Step>, p: OpId, device: Identity, task: Task)
    requires Inv(s) && CanRun(s, steps) && p !in After(s, steps).ops
    ensures
      var entry := LastEntry(s, steps, device, Entry(s, device));
      && StartsFrom(After(s, steps), p, device, task, entry)
      && (entry.Some? ==>
            (entry.value.own <==> TrueKey(After(s, steps), entry.value.vaultKey, entry.value.vaultVersion)))
  {
    RunKeeps(s, steps);
    RunEntry(s, steps, device);
    assert device in After(s, steps).caches ==> UnlockedOk(After(s, steps), After(s, steps).caches[device]);
    EntryStarts(After(s, steps), p, device, task);
  }

  lemma EntryStarts(s: State, p: OpId, device: Identity, task: Task)
    requires p !in s.ops
    ensures StartsFrom(s, p, device, task, Entry(s, device))
  {
  }

  /**
   * A full unlock that succeeds yields the version current when the wrap is read, and
   * the true key if and only if the wrap holds this organization's key.
   */
  lemma UnlockIsCurrent(s: State, o: OpId, keyId: KeyId)
    requires Inv(s) && Enabled(s, FetchWrap(o, keyId)) && o in Next(s, FetchWrap(o, keyId)).ops
    ensures
      var t := Next(s, FetchWrap(o, keyId));
      && t.ops[o].op.Fetched? && t.ops[o].op.vault.vaultVersion == |s.history|
      && (TrueKey(t, t.ops[o].op.vault.vaultKey, |s.history|) <==> s.wraps[(|s.history|, keyId)].own)
  {
    hide Inv, FetchedKey, UnlockedOk;
    FetchGives(s, o, keyId);
  }

  lemma FetchGives(s: State, o: OpId, keyId: KeyId)
    requires Inv(s) && Enabled(s, FetchWrap(o, keyId)) && FetchedKey(s, o, keyId).Some?
    ensures FetchedKey(s, o, keyId).value.vaultVersion == |s.history| && (|s.history|, keyId) in s.wraps
    ensures TrueKey(s, FetchedKey(s, o, keyId).value.vaultKey, |s.history|) <==> s.wraps[(|s.history|, keyId)].own
  {
    FetchedIsOk(s, o, keyId);
  }

  // ---------------------------------------------------------------- devices of one organization

  /** Every key in the keychains, in the wraps and in the commands is this organization's. */
  ghost predicate AllOwn(s: State) {
    && (forall d | d in s.caches :: s.caches[d].own)
    && (forall k | k in s.wraps :: s.wraps[k].own)
    && (forall o | o in s.ops :: OwnOp(s.orgId, s.ops[o]))
  }

  /** The command works for organization `orgId`, with its key if with any. */
  predicate OwnOp(orgId: string, c: Command) {
    c.orgId == orgId &&
    match c.op
    case UploadSent(_, e, own) => own && e.wrappedDek.binding.orgId == orgId
    case UploadChecked(_, e, own) => own && e.wrappedDek.binding.orgId == orgId
    case GrantSent(_, _, _, own) => own
    case GrantChecked(_, _, _, own) => own
    case _ => HeldKey(c.op).Some? ==> HeldKey(c.op).value.own
  }

  /**
   * The step starts a command for another organization, or lets a command or a keychain
   * take a key that is not this organization's key of its version.
   */
  predicate Mixes(s: State, step: Step) {
    match step
    case Begin(_, _, orgId, _, _) => orgId != s.orgId
    case CacheElsewhere(_, vaultKey, vaultVersion) => !TrueKey(s, vaultKey, vaultVersion)
    case FetchElsewhere(_, vaultKey, vaultVersion) => !TrueKey(s, vaultKey, vaultVersion)
    case _ => false
  }

  ghost predicate NeverMixed(s: State, steps: seq<Step>)
    requires CanRun(s, steps)
    decreases |steps|
  {
    steps == [] || (!Mixes(s, steps[0]) && NeverMixed(Next(s, steps[0]), steps[1..]))
  }

  lemma KeychainOwn(s: State, step: Step)
    requires Enabled(s, step) && AllOwn(s) && !Mixes(s, step)
    requires step.ExpireCache? || step.DrawElsewhere? || step.CacheElsewhere? || step.StoreCache?
    ensures AllOwn(Next(s, step))
  {
    match step
    case ExpireCache(_) =>
    case DrawElsewhere =>
    case CacheElsewhere(_, _, _) =>
    case StoreCache(o, _) => assert OwnOp(s.orgId, s.ops[o]);
  }

  /** Nothing new but the command `o`, and wraps of this organization's key. */
  ghost predicate AddsOwn(s: State, t: State, o: OpId) {
    && t.orgId == s.orgId
    && (forall p | p in t.ops && p != o :: p in s.ops && t.ops[p] == s.ops[p])
    && (o in t.ops ==> OwnOp(t.orgId, t.ops[o]))
    && (forall d | d in t.caches :: d in s.caches && t.caches[d] == s.caches[d])
    && (forall k | k in t.wraps :: (k in s.wraps && t.wraps[k] == s.wraps[k]) || t.wraps[k].own)
  }

  lemma AddsOwnKeeps(s: State, t: State, o: OpId)
    requires AllOwn(s) && AddsOwn(s, t, o)
    ensures AllOwn(t)
  {
  }

  /** Steps that write tables and no command. */
  lemma TablesOwn(s: State, step: Step)
    requires Enabled(s, step) && AllOwn(s)
    requires step.RegisterKey? || step.DropDeviceWraps? || step.DeleteCredential?
    ensures AllOwn(Next(s, step))
  {
    match step
    case RegisterKey(_, _) =>
    case DropDeviceWraps(_, _) =>
    case DeleteCredential(_) =>
  }

  lemma AdvanceOwn(s: State, o: OpId, op: Op)
    requires o in s.ops && OwnOp(s.orgId, s.ops[o].(op := op))
    ensures AddsOwn(s, Advance(s, o, op), o)
  {
  }

  lemma EndOwn(s: State, o: OpId)
    ensures AddsOwn(s, End(s, o), o)
  {
  }

  lemma CheckUploadOwn(s: State, o: OpId)
    requires Enabled(s, CheckUpload(o)) && OwnOp(s.orgId, s.ops[o])
    ensures AddsOwn(s, Next(s, CheckUpload(o)), o)
  {
    hide AddsOwn, UploadVersionCurrent, Advance, End;
    var UploadSent(cred, envelope, own) := s.ops[o].op;
    AdvanceOwn(s, o, UploadChecked(cred, envelope, own));
    EndOwn(s, o);
  }

  lemma InsertUploadOwn(s: State, o: OpId)
    requires Enabled(s, InsertUpload(o))
    ensures AddsOwn(s, Next(s, InsertUpload(o)), o)
  {
  }

  lemma CheckGrantOwn(s: State, o: OpId)
    requires Enabled(s, CheckGrant(o)) && OwnOp(s.orgId, s.ops[o])
    ensures AddsOwn(s, Next(s, CheckGrant(o)), o)
  {
    hide AddsOwn, GrantAllowed, Advance, End;
    var GrantSent(target, version, wrapped, own) := s.ops[o].op;
    AdvanceOwn(s, o, GrantChecked(target, version, wrapped, own));
    EndOwn(s, o);
  }

  lemma InsertGrantOwn(s: State, o: OpId)
    requires Enabled(s, InsertGrant(o)) && OwnOp(s.orgId, s.ops[o])
    ensures AddsOwn(s, InsertGrantStep(s, o), o)
  {
  }

  lemma BootstrapOwn(s: State, step: Step)
    requires Enabled(s, step) && OfBootstrap(step) && (step.o in s.ops ==> OwnOp(s.orgId, s.ops[step.o]))
    ensures AddsOwn(s, Next(s, step), step.o)
  {
    hide AddsOwn;
    match step
    case BeginBootstrap(_, _, _, _) => BeginBootstrapOwn(s, step);
    case RegisterRecovery(o, keyId) => RecoveryOwn(s, o, keyId);
    case CheckBootstrap(o) => CheckBootstrapOwn(s, o);
    case CommitBootstrap(o) => CommitBootstrapOwn(s, o);
  }

  lemma BeginBootstrapOwn(s: State, step: Step)
    requires Enabled(s, step) && step.BeginBootstrap?
    ensures AddsOwn(s, Next(s, step), step.o)
  {
  }

  lemma CheckBootstrapOwn(s: State, o: OpId)
    requires Enabled(s, CheckBootstrap(o)) && OwnOp(s.orgId, s.ops[o])
    ensures AddsOwn(s, Next(s, CheckBootstrap(o)), o)
  {
    hide AddsOwn, RecipientsAllowed, Advance, End;
    AdvanceOwn(s, o, BootChecked(s.ops[o].op.boot));
    EndOwn(s, o);
  }

  lemma RecoveryOwn(s: State, o: OpId, keyId: KeyId)
    requires Enabled(s, RegisterRecovery(o, keyId)) && OwnOp(s.orgId, s.ops[o])
    ensures AddsOwn(s, RegisterRecoveryStep(s, o, keyId), o)
  {
  }

  lemma CommitBootstrapOwn(s: State, o: OpId)
    requires Enabled(s, CommitBootstrap(o)) && OwnOp(s.orgId, s.ops[o])
    ensures AddsOwn(s, CommitBootstrapStep(s, o), o)
  {
    RowsOfList(1, s.ops[o].op.boot.wraps);
    BootstrapFrame(s, o);
    hide WrapRows;
  }

  lemma CommitOwn(s: State, o: OpId)
    requires Enabled(s, CommitRotate(o)) && OwnOp(s.orgId, s.ops[o])
    ensures AddsOwn(s, CommitRotateStep(s, o), o)
  {
    RotatedWrapsOwn(s, o);
    hide RotateBatch;
  }

  lemma RotatedWrapsOwn(s: State, o: OpId)
    requires Enabled(s, CommitRotate(o))
    ensures
      var t := RotateBatch(s, s.ops[o].op.rotation);
      && t.ops == s.ops && t.caches == s.caches
      && forall k | k in t.wraps :: (k in s.wraps && t.wraps[k] == s.wraps[k]) || t.wraps[k].own
  {
    RowsOfList(s.ops[o].op.rotation.fromVersion + 1, s.ops[o].op.rotation.wraps);
    hide WrapRows, RewrittenRow, WinsCas;
  }

  lemma RewrapOwn(s: State, o: OpId)
    requires Enabled(s, Rewrap(o)) && OwnOp(s.orgId, s.ops[o])
    ensures AddsOwn(s, RewrapStep(s, o), o)
  {
    hide AddsOwn, AllUnwrap, RawDek, WrapAll, Advance, End;
    var RotateListed(vault, newKey, recipients, listed) := s.ops[o].op;
    EndOwn(s, o);
    if AllUnwrap(s.orgId, listed, vault.vaultKey) {
      AdvanceOwn(s, o, RotateSent(Rewrapped(s, s.orgId, vault, newKey, recipients, listed)));
    }
  }

  lemma RotationOwn(s: State, step: Step)
    requires Enabled(s, step) && OfRotation(step) && OwnOp(s.orgId, s.ops[step.o])
    ensures AddsOwn(s, Next(s, step), step.o)
  {
    hide AddsOwn, RecipientsAllowed;
    match step
    case ListDeks(o) => ListedOwn(s, o, Listing(s));
    case ListElsewhere(o) => ListedOwn(s, o, map[]);
    case Rewrap(o) => RewrapOwn(s, o);
    case CheckRotate(o) => CheckRotateOwn(s, o);
    case CheckCoverage(o) => CheckCoverageOwn(s, o);
    case CommitRotate(o) => CommitOwn(s, o);
    case ForgetCache(o) => ForgetOwn(s, o);
  }

  lemma ListedOwn(s: State, o: OpId, listed: map<CredRef, ListedDek>)
    requires o in s.ops && s.ops[o].op.Ready? && s.ops[o].op.task.Rotate? && OwnOp(s.orgId, s.ops[o])
    ensures AddsOwn(s, ListStep(s, o, listed), o)
  {
  }

  lemma CheckRotateOwn(s: State, o: OpId)
    requires Enabled(s, CheckRotate(o)) && OwnOp(s.orgId, s.ops[o])
    ensures AddsOwn(s, Next(s, CheckRotate(o)), o)
  {
    hide AddsOwn, RecipientsAllowed, WinsCas, Advance, End;
    AdvanceOwn(s, o, RotatePrechecked(s.ops[o].op.rotation));
    EndOwn(s, o);
  }

  lemma CheckCoverageOwn(s: State, o: OpId)
    requires Enabled(s, CheckCoverage(o)) && OwnOp(s.orgId, s.ops[o])
    ensures AddsOwn(s, Next(s, CheckCoverage(o)), o)
  {
    hide AddsOwn, Advance, End;
    AdvanceOwn(s, o, RotateCovered(s.ops[o].op.rotation));
    EndOwn(s, o);
  }

  lemma ForgetOwn(s: State, o: OpId)
    requires Enabled(s, ForgetCache(o))
    ensures AddsOwn(s, Next(s, ForgetCache(o)), o)
  {
  }

  lemma ServerOwn(s: State, step: Step)
    requires step.CheckUpload? || step.InsertUpload? || step.CheckGrant? || step.InsertGrant?
    requires Enabled(s, step) && OwnOp(s.orgId, s.ops[step.o])
    ensures AddsOwn(s, Next(s, step), step.o)
  {
    hide AddsOwn;
    match step
    case CheckUpload(o) => CheckUploadOwn(s, o);
    case InsertUpload(o) => InsertUploadOwn(s, o);
    case CheckGrant(o) => CheckGrantOwn(s, o);
    case InsertGrant(o) => InsertGrantOwn(s, o);
  }

  lemma FetchOwn(s: State, o: OpId, keyId: KeyId)
    requires Enabled(s, FetchWrap(o, keyId)) && s.ops[o].orgId == s.orgId && forall k | k in s.wraps :: s.wraps[k].own
    ensures AddsOwn(s, Next(s, FetchWrap(o, keyId)), o)
  {
    hide AddsOwn, Advance, End, UnwrapVaultKey;
    EndOwn(s, o);
    var fetched := FetchedKey(s, o, keyId);
    if fetched.Some? {
      assert fetched.value.own;
      AdvanceOwn(s, o, Fetched(s.ops[o].op.task, fetched.value));
    }
  }

  lemma SealOwn(s: State, o: OpId, id: string)
    requires Enabled(s, Seal(o, id)) && OwnOp(s.orgId, s.ops[o])
    ensures AddsOwn(s, SealStep(s, o, id), o)
  {
    hide SealCredential;
  }

  lemma WrapForTargetOwn(s: State, o: OpId)
    requires Enabled(s, WrapForTarget(o)) && OwnOp(s.orgId, s.ops[o])
    ensures AddsOwn(s, Next(s, WrapForTarget(o)), o)
  {
    hide WrapVaultKey;
  }

  lemma FetchElsewhereOwn(s: State, o: OpId, key: Key, version: nat)
    requires Enabled(s, FetchElsewhere(o, key, version)) && OwnOp(s.orgId, s.ops[o]) && TrueKey(s, key, version)
    ensures AddsOwn(s, Next(s, FetchElsewhere(o, key, version)), o)
  {
    hide AddsOwn, Advance;
    AdvanceOwn(s, o, Fetched(s.ops[o].op.task, Brought(s, key, version)));
  }

  lemma BeginOwn(s: State, o: OpId, device: Identity, task: Task, useCache: bool)
    requires Enabled(s, Begin(o, device, s.orgId, task, useCache)) && forall d | d in s.caches :: s.caches[d].own
    ensures AddsOwn(s, Next(s, Begin(o, device, s.orgId, task, useCache)), o)
  {
  }

  lemma TaskOwn(s: State, step: Step)
    requires step.Crash? || step.Begin? || step.FetchWrap? || step.FetchElsewhere? || step.Seal? || step.WrapForTarget?
    requires Enabled(s, step) && AllOwn(s) && !Mixes(s, step)
    ensures AddsOwn(s, Next(s, step), step.o)
  {
    assert step.o in s.ops ==> OwnOp(s.orgId, s.ops[step.o]);
    hide AddsOwn;
    match step
    case Crash(o) => EndOwn(s, o);
    case Begin(o, device, orgId, task, useCache) => BeginOwn(s, o, device, task, useCache);
    case FetchWrap(o, keyId) => FetchOwn(s, o, keyId);
    case FetchElsewhere(o, key, version) => FetchElsewhereOwn(s, o, key, version);
    case Seal(o, id) => SealOwn(s, o, id);
    case WrapForTarget(o) => WrapForTargetOwn(s, o);
  }

  /** Steps that only write tables or keychains. */
  predicate OfTables(step: Step) {
    step.RegisterKey? || step.DropDeviceWraps? || step.DeleteCredential?
  }

  predicate OfKeychain(step: Step) {
    step.ExpireCache? || step.DrawElsewhere? || step.CacheElsewhere? || step.StoreCache?
  }

  lemma CommandOwn(s: State, step: Step)
    requires Enabled(s, step) && AllOwn(s) && !OfTables(step) && !OfKeychain(step) && !Mixes(s, step)
    ensures AddsOwn(s, Next(s, step), step.o)
  {
    assert step.o in s.ops ==> OwnOp(s.orgId, s.ops[step.o]);
    hide AllOwn, Next, AddsOwn, OwnOp, Mixes;
    if OfRotation(step) {
      RotationOwn(s, step);
    } else if OfBootstrap(step) {
      BootstrapOwn(s, step);
    } else if OfServer(step) {
      ServerOwn(s, step);
    } else {
      TaskOwn(s, step);
    }
  }

  lemma StepOwn(s: State, step: Step)
    requires Enabled(s, step) && AllOwn(s) && !Mixes(s, step)
    ensures AllOwn(Next(s, step))
  {
    hide Next, AllOwn, AddsOwn, Mixes;
    if OfTables(step) {
      TablesOwn(s, step);
    } else if OfKeychain(step) {
      KeychainOwn(s, step);
    } else {
      CommandOwn(s, step);
      AddsOwnKeeps(s, Next(s, step), step.o);
    }
  }

  lemma OwnIsNotStray(s: State, step: Step)
    requires Enabled(s, step) && AllOwn(s)
    ensures !StrayRotation(s, step)
  {
    if step.CommitRotate? {
      assert OwnOp(s.orgId, s.ops[step.o]);
    }
  }

  /** The write comes at a version, or with a list of rows, that the vault has moved past. */
  predicate Overtaken(s: State, step: Step, r: CredRef)
    requires Enabled(s, step)
  {
    match step
    case InsertUpload(o) => s.ops[o].op.cred == r && s.ops[o].op.envelope.vaultVersion != |s.history|
    case CommitRotate(o) => r in s.creds && WinsCas(s, s.ops[o].op.rotation) && r !in s.ops[o].op.rotation.deks
    case _ => false
  }

  ghost predicate EverOvertaken(s: State, steps: seq<Step>, r: CredRef)
    requires CanRun(s, steps)
    decreases |steps|
  {
    steps != [] && (Overtaken(s, steps[0], r) || EverOvertaken(Next(s, steps[0]), steps[1..], r))
  }

  lemma {:induction false} RunOwn(s: State, steps: seq<Step>, r: CredRef)
    requires CanRun(s, steps) && AllOwn(s) && NeverMixed(s, steps)
    ensures AllOwn(After(s, steps)) && NoStrayRotation(s, steps)
    ensures EverStranded(s, steps, r) <==> EverOvertaken(s, steps, r)
    decreases |steps|
  {
    hide Next, Mixes, StrayRotation, AllOwn, Overtaken, Strands;
    if steps != [] {
      StepOwn(s, steps[0]);
      OwnIsNotStray(s, steps[0]);
      StrandsIsOvertaken(s, steps[0], r);
      RunOwn(Next(s, steps[0]), steps[1..], r);
    }
  }

  lemma StrandsIsOvertaken(s: State, step: Step, r: CredRef)
    requires Enabled(s, step) && AllOwn(s)
    ensures Strands(s, step, r) <==> Overtaken(s, step, r)
  {
    if step.InsertUpload? {
      assert OwnOp(s.orgId, s.ops[step.o]);
    }
  }

  /**
   * While no step mixes organizations, every key in use is the true key of its version, and
   * a stored credential opens under the current key if and only if no overtaken write ever
   * hit it.
   */
  lemma OneOrganizationHealth(orgId: string, steps: seq<Step>, r: CredRef)
    requires CanRun(Init(orgId), steps) && NeverMixed(Init(orgId), steps)
    requires r in After(Init(orgId), steps).creds
    ensures AllOwn(After(Init(orgId), steps))
    ensures Healthy(After(Init(orgId), steps), r) <==> !EverOvertaken(Init(orgId), steps, r)
  {
    InitOk(orgId);
    assert AllOwn(Init(orgId));
    hide Inv, AllOwn, Healthy, EverOvertaken, EverStranded;
    RunOwn(Init(orgId), steps, r);
    OwnRunHealth(Init(orgId), steps, r);
  }

  // ---------------------------------------------------------------- after a device's own rotation

  /** Whatever ran since, a fetch gets a version at least as late as the state it started in. */
  lemma LaterFetch(s: State, steps: seq<Step>, p: OpId, keyId: KeyId)
    requires Inv(s) && CanRun(s, steps) && Enabled(After(s, steps), FetchWrap(p, keyId))
    ensures
      var u := Next(After(s, steps), FetchWrap(p, keyId));
      p in u.ops ==> u.ops[p].op.Fetched? && u.ops[p].op.vault.vaultVersion >= |s.history|
  {
    var t := After(s, steps);
    RunKeeps(s, steps);
    HistoryGrows(s, t);
    hide CanRun, After;
    if p in Next(t, FetchWrap(p, keyId)).ops {
      UnlockIsCurrent(t, p, keyId);
    }
  }

  lemma HistoryGrows(s: State, t: State)
    requires Grows(s, t)
    ensures |s.history| <= |t.history|
  {
  }

  /** The rotation of version `v` by command `o` of `device` wins. */
  ghost predicate Rotated(s: State, o: OpId, device: Identity, v: nat, t: State) {
    && Enabled(s, CommitRotate(o)) && s.ops[o].device == device
    && WinsCas(s, s.ops[o].op.rotation) && s.ops[o].op.rotation.fromVersion == v
    && t == Next(s, CommitRotate(o))
  }

  /** The command's last step, which clears the keychain entry of its device. */
  ghost predicate Forgot(s: State, o: OpId, device: Identity, t: State) {
    Enabled(s, ForgetCache(o)) && s.ops[o].device == device && t == Next(s, ForgetCache(o))
  }

  lemma ForgotIsEmpty(s: State, o: OpId, device: Identity, t: State)
    requires Inv(s) && Forgot(s, o, device, t)
    ensures Inv(t) && Entry(t, device).None? && |t.history| >= |s.history|
  {
    hide Inv, Entry;
    StepKeeps(s, ForgetCache(o));
    HistoryGrows(s, t);
    StepEntry(s, ForgetCache(o), device);
  }

  lemma WonIsNewer(s: State, o: OpId, device: Identity, v: nat, t: State)
    requires Inv(s) && Rotated(s, o, device, v, t)
    ensures Inv(t) && |t.history| > v
  {
    CommitKeeps(s, o);
    WonBatch(s, o);
    hide CommitRotateStep, OpsOk, WrapsOk, RecoveryOk, CachesOk, PendingOk, UploadsOk, CredsOk, BatchFrame, WrapsFor;
  }

  /**
   * The command holds a key of a version past `v`, or has none yet, and then whatever it
   * fetches, after any run, is.
   */
  ghost predicate KeyIsPast(s: State, p: OpId, v: nat) {
    p in s.ops &&
    if HeldKey(s.ops[p].op).Some? then HeldKey(s.ops[p].op).value.vaultVersion > v
    else forall more, keyId :: FetchIsPast(s, p, v, more, keyId)
  }

  ghost predicate FetchIsPast(s: State, p: OpId, v: nat, more: seq<Step>, keyId: KeyId) {
    CanRun(s, more) && Enabled(After(s, more), FetchWrap(p, keyId)) ==>
      var u := Next(After(s, more), FetchWrap(p, keyId));
      p in u.ops ==> u.ops[p].op.Fetched? && u.ops[p].op.vault.vaultVersion > v
  }

  ghost predicate NextKeyIsPast(s: State, p: OpId, device: Identity, task: Task, v: nat) {
    p !in s.ops && forall orgId {:trigger Begin(p, device, orgId, task, true)} ::
    KeyIsPast(Next(s, Begin(p, device, orgId, task, true)), p, v)
  }

  /**
   * After a device's rotation of version `v` has committed and cleared its keychain
   * entry, and after any further run: the key its next command starts from or fetches here
   * has a version past `v` if and only if the last step that touched the entry since, if
   * any, did not leave a key with a version up to `v` in it, which only a command that
   * fetched before the commit (`LaterFetch`) or another organization can do.
   */
  lemma NextKeyIsNewer(
    s: State, o: OpId, device: Identity, v: nat, t: State, mid: seq<Step>, u: State,
    steps: seq<Step>, p: OpId, task: Task)
    requires Inv(s) && Rotated(s, o, device, v, t)
    requires CanRun(t, mid) && Forgot(After(t, mid), o, device, u)
    requires CanRun(u, steps) && p !in After(u, steps).ops
    ensures
      var entry := LastEntry(u, steps, device, None);
      && StartsFrom(After(u, steps), p, device, task, entry)
      && (NextKeyIsPast(After(u, steps), p, device, task, v) <==> (entry.Some? ==> entry.value.vaultVersion > v))
  {
    hide Inv, Rotated, Forgot, Entry, StartsFrom, NextKeyIsPast, CanRun, After, LastEntry, Next;
    WonIsNewer(s, o, device, v, t);
    RunKeeps(t, mid);
    HistoryGrows(t, After(t, mid));
    ForgotIsEmpty(After(t, mid), o, device, u);
    RunKeeps(u, steps);
    HistoryGrows(u, After(u, steps));
    RunEntry(u, steps, device);
    EntryStarts(After(u, steps), p, device, task);
    NextIsPast(After(u, steps), p, device, task, v);
  }

  lemma NextIsPast(s: State, p: OpId, device: Identity, task: Task, v: nat)
    requires Inv(s) && p !in s.ops && |s.history| > v
    ensures NextKeyIsPast(s, p, device, task, v) <==>
              (Entry(s, device).Some? ==> Entry(s, device).value.vaultVersion > v)
  {
    hide Inv, KeyIsPast;
    forall orgId
      ensures KeyIsPast(Next(s, Begin(p, device, orgId, task, true)), p, v) <==>
                (Entry(s, device).Some? ==> Entry(s, device).value.vaultVersion > v)
    {
      StepKeeps(s, Begin(p, device, orgId, task, true));
      BegunIsPast(Next(s, Begin(p, device, orgId, task, true)), p, v);
    }
    assert NextKeyIsPast(s, p, device, task, v) ==> KeyIsPast(Next(s, Begin(p, device, s.orgId, task, true)), p, v);
  }

  lemma BegunIsPast(s: State, p: OpId, v: nat)
    requires Inv(s) && p in s.ops && |s.history| > v
    ensures KeyIsPast(s, p, v) <==> (HeldKey(s.ops[p].op).Some? ==> HeldKey(s.ops[p].op).value.vaultVersion > v)
  {
    if HeldKey(s.ops[p].op).None? {
      forall more, keyId
        ensures FetchIsPast(s, p, v, more, keyId)
      {
        if CanRun(s, more) && Enabled(After(s, more), FetchWrap(p, keyId)) {
          LaterFetch(s, more, p, keyId);
        }
      }
    }
  }
}
