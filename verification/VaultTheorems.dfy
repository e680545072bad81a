/** What rotation, granting, bootstrapping and the device cache do, over every run. */
module VaultTheorems {
  import opened Wrappers
  import opened Crypto
  import opened CredentialCipher
  import opened VaultModel
  import opened VaultFrames
  import opened VaultInvariant
  import opened VaultPreserved
  import opened VaultHealth

  // ---------------------------------------------------------------- rotation

  /** The vault key a registered recipient gets from the server right now. */
  function UnlockAs(s: State, keyId: KeyId): Option<Unlocked> {
    if s.vault.None? || keyId !in s.keys || (s.vault.value, keyId) !in s.wraps then None
    else
      var row := s.wraps[(s.vault.value, keyId)];
      match UnwrapVaultKey(row.blob, s.keys[keyId].publicKey.owner)
      case None => None
      case Some(key) => Some(Unlocked(key, s.vault.value, row.own))
  }

  lemma WonRecipients(s: State, t: State, o: OpId, rotation: Rotation, keyId: KeyId)
    requires BatchFrame(s, t, o, rotation) && BatchWon(s, t, rotation) && WrapsFor(s, rotation.wraps, rotation.newKey)
    ensures (exists w | w in rotation.wraps :: w.keyId == keyId) <==>
              UnlockAs(t, keyId) == Some(Unlocked(rotation.newKey, |t.history|, true))
    ensures (forall w | w in rotation.wraps :: w.keyId != keyId) <==> UnlockAs(t, keyId).None?
  {
    var k := (|t.history|, keyId);
    if k in t.wraps {
      var w := RecipientWrap(keyId, t.wraps[k].blob);
      assert w in rotation.wraps && w.keyId == keyId;
      assert UnlockAs(t, keyId) == Some(Unlocked(rotation.newKey, |t.history|, true));
    }
  }

  lemma WonBatch(s: State, o: OpId)
    requires HistoryOk(s) && WrapsOk(s) && OpsOk(s) && Enabled(s, CommitRotate(o)) && WinsCas(s, s.ops[o].op.rotation)
    ensures BatchFrame(s, CommitRotateStep(s, o), o, s.ops[o].op.rotation)
    ensures BatchWon(s, CommitRotateStep(s, o), s.ops[o].op.rotation)
    ensures WrapsFor(s, s.ops[o].op.rotation.wraps, s.ops[o].op.rotation.newKey)
  {
    CoveredRotation(s, o);
    BatchShape(s, o);
  }

  /** A committed rotation leaves exactly the requested recipients, all holding the one new key. */
  lemma RotationInstallsRecipients(s: State, o: OpId, keyId: KeyId)
    requires Inv(s) && Enabled(s, CommitRotate(o)) && WinsCas(s, s.ops[o].op.rotation)
    ensures
      var rotation := s.ops[o].op.rotation;
      var t := CommitRotateStep(s, o);
      && t.vault == Some(rotation.fromVersion + 1)
      && ((exists w | w in rotation.wraps :: w.keyId == keyId) <==>
            UnlockAs(t, keyId) == Some(Unlocked(rotation.newKey, rotation.fromVersion + 1, true)))
      && ((forall w | w in rotation.wraps :: w.keyId != keyId) <==> UnlockAs(t, keyId).None?)
  {
    WonBatch(s, o);
    WonRecipients(s, CommitRotateStep(s, o), o, s.ops[o].op.rotation, keyId);
  }

  lemma LostBatch(s: State, t: State, o: OpId, rotation: Rotation)
    requires BatchFrame(s, t, o, rotation) && BatchLost(s, t, rotation) && Discarded(t, rotation.newKey)
    requires forall r | r in rotation.deks :: RewrappedOk(s, r, rotation)
    ensures t.creds == s.creds <==>
              forall r | r in s.creds && r in rotation.deks :: s.creds[r].vaultVersion != rotation.fromVersion
    ensures forall r | r in s.creds && t.creds[r] != s.creds[r] :: Discarded(t, t.creds[r].wrappedDek.key)
  {
    forall r | r in s.creds
      ensures t.creds[r] != s.creds[r] <==> r in rotation.deks && s.creds[r].vaultVersion == rotation.fromVersion
      ensures t.creds[r] != s.creds[r] ==> t.creds[r].wrappedDek.key == rotation.newKey
    {
      assert t.creds[r] == RewrittenRow(s.creds[r], r, rotation);
    }
  }

  /**
   * A rotation that loses the compare-and-swap leaves the vault, the wraps and the
   * keys alone, and the credentials too exactly when no submitted row is still at
   * the version it started from. A row it does rewrite ends under a key nobody holds.
   */
  lemma LostRotation(s: State, o: OpId)
    requires Inv(s) && Enabled(s, CommitRotate(o)) && !WinsCas(s, s.ops[o].op.rotation)
    ensures
      var rotation := s.ops[o].op.rotation;
      var t := CommitRotateStep(s, o);
      && t.vault == s.vault && t.wraps == s.wraps && t.keys == s.keys && t.history == s.history
      && (t.creds == s.creds <==>
            forall r | r in s.creds && r in rotation.deks :: s.creds[r].vaultVersion != rotation.fromVersion)
      && (forall r | r in s.creds && t.creds[r] != s.creds[r] :: Discarded(t, t.creds[r].wrappedDek.key))
  {
    var rotation := s.ops[o].op.rotation;
    var t := CommitRotateStep(s, o);
    CoveredRotation(s, o);
    BatchShape(s, o);
    BatchSettlesKey(s, t, o, rotation);
    LostBatch(s, t, o, rotation);
  }

  /** What a recipient gets when it fetches the vault key and opens a stored row. */
  function OpenAs(s: State, keyId: KeyId, r: CredRef, server: Record): Result<Record, OpenError>
    requires r in s.creds && UnlockAs(s, keyId).Some?
  {
    OpenStored(s, UnlockAs(s, keyId).value, r, server)
  }

  /** A recipient unlocks at the current version, and the true current key exactly when its wrap is not a stray one. */
  lemma RecipientsUnlockCurrent(s: State, keyId: KeyId)
    requires Inv(s) && UnlockAs(s, keyId).Some?
    ensures UnlockedOk(s, UnlockAs(s, keyId).value) && UnlockAs(s, keyId).value.vaultVersion == |s.history|
  {
    assert WrapOk(s, s.vault.value, keyId, s.wraps[(s.vault.value, keyId)]);
  }

  lemma RecipientOpens(s: State, keyId: KeyId, r: CredRef, server: Record)
    requires Inv(s) && r in s.creds && UnlockAs(s, keyId).Some? && UnlockAs(s, keyId).value.own
    ensures OpenAs(s, keyId, r, server) == if Healthy(s, r) then Contents(s.creds[r], server) else Err(UnwrapFailed)
  {
    hide Inv, Healthy, OpenStored, Contents;
    RecipientsUnlockCurrent(s, keyId);
    CurrentKeyOpens(s, UnlockAs(s, keyId).value, r, server);
  }

  /**
   * Rotation preserves meaning: over any run, whichever recipient opens a credential
   * before and whichever opens it after, with wraps of this organization's key, an
   * answer is the sealed contents, the same both times; there is one at the end exactly
   * when the run's writes say so. No rotation rewrites the ciphertext.
   */
  lemma MeaningPreserved(s: State, steps: seq<Step>, r: CredRef, before: KeyId, after: KeyId, server: Record)
    requires Inv(s) && CanRun(s, steps)
    requires r in s.creds && r in After(s, steps).creds
    requires UnlockAs(s, before).Some? && UnlockAs(s, before).value.own
    requires UnlockAs(After(s, steps), after).Some? && UnlockAs(After(s, steps), after).value.own
    ensures OpenAs(s, before, r, server) == if Healthy(s, r) then Contents(s.creds[r], server) else Err(UnwrapFailed)
    ensures OpenAs(After(s, steps), after, r, server)
         == if RunOpens(s, steps, r, Healthy(s, r)) then Contents(s.creds[r], server) else Err(UnwrapFailed)
    ensures After(s, steps).creds[r].ciphertext == s.creds[r].ciphertext
  {
    hide Inv, Grows, OpenAs, Healthy, RunOpens, UnlockAs;
    RunKeeps(s, steps);
    KeptRowHealth(s, steps, r);
    RecipientOpens(s, before, r, server);
    RecipientOpens(After(s, steps), after, r, server);
  }

  /** In every reachable state with a vault, an offline recovery recipient holds the true current key. */
  lemma RecoveryAlwaysUnlocks(orgId: string, steps: seq<Step>)
    requires CanRun(Init(orgId), steps) && After(Init(orgId), steps).vault.Some?
    ensures
      var s := After(Init(orgId), steps);
      exists k | k in s.keys ::
        && s.keys[k].kind.Recovery? && UnlockAs(s, k).Some?
        && TrueKey(s, UnlockAs(s, k).value.vaultKey, |s.history|) && UnlockAs(s, k).value.vaultVersion == |s.history|
  {
    InitOk(orgId);
    RunKeeps(Init(orgId), steps);
    RecoveryUnlocks(After(Init(orgId), steps));
  }

  lemma RecoveryUnlocks(s: State)
    requires Inv(s) && s.vault.Some?
    ensures exists k | k in s.keys ::
              && s.keys[k].kind.Recovery? && UnlockAs(s, k).Some?
              && TrueKey(s, UnlockAs(s, k).value.vaultKey, |s.history|)
              && UnlockAs(s, k).value.vaultVersion == |s.history|
  {
    var k :| HoldsRecovery(s, k);
    assert WrapOk(s, |s.history|, k, s.wraps[(|s.history|, k)]);
    assert UnlockAs(s, k) == Some(Unlocked(s.history[|s.history| - 1], |s.history|, true));
  }

  /** In every reachable state no key of another organization holds a wrap. */
  lemma OnlyOwnKeysUnlock(orgId: string, steps: seq<Step>, keyId: KeyId)
    requires CanRun(Init(orgId), steps) && UnlockAs(After(Init(orgId), steps), keyId).Some?
    ensures OwnKey(After(Init(orgId), steps), keyId)
  {
    InitOk(orgId);
    RunKeeps(Init(orgId), steps);
  }

  // ---------------------------------------------------------------- a row that cannot be opened stops rotation

  /** The data key does not unwrap under this key for this organization. */
  predicate Refuses(t: State, wrappedDek: Aead<Key>, key: Key) {
    wrappedDek.key != key || wrappedDek.binding.orgId != t.orgId
  }

  /** A rotation that carries `r` works with this organization's key and leaves no version past `v`. */
  predicate CarriesUpTo(rotation: Rotation, v: nat, r: CredRef) {
    r in rotation.deks ==> rotation.vault.own && rotation.fromVersion <= v
  }

  /**
   * A rotation being prepared that has listed `r` works with this organization's key and,
   * past version `v`, for this organization with a key that does not unwrap it.
   */
  predicate ListsUpTo(t: State, c: Command, v: nat, r: CredRef)
    requires c.op.RotateListed?
  {
    r in c.op.listed ==>
      && c.op.vault.own
      && (c.op.vault.vaultVersion > v ==>
            c.orgId == t.orgId && Refuses(t, c.op.listed[r].wrappedDek, c.op.vault.vaultKey))
  }

  /**
   * While the row `r` is stored: at most one version past `v`, whose key does not unwrap
   * it; rotations that carry or list it do so up to `v`, or fail; and no rotation past its
   * coverage check leaves a version past `v`.
   */
  ghost predicate Stuck(t: State, v: nat, r: CredRef) {
    r in t.creds ==>
      && |t.history| <= v + 1
      && (|t.history| == v + 1 ==> Refuses(t, t.creds[r].wrappedDek, t.history[v]))
      && (forall o | o in t.ops && RotationOf(t.ops[o].op).Some? :: CarriesUpTo(RotationOf(t.ops[o].op).value, v, r))
      && (forall o | o in t.ops && t.ops[o].op.RotateCovered? :: t.ops[o].op.rotation.fromVersion <= v)
      && (forall o | o in t.ops && t.ops[o].op.RotateListed? :: ListsUpTo(t, t.ops[o], v, r))
  }

  predicate PreparesRotation(step: Step) {
    || step.ListDeks? || step.ListElsewhere? || step.Rewrap? || step.CheckRotate? || step.CheckCoverage?
    || step.CommitRotate?
  }

  predicate Rotating(op: Op) {
    op.RotateListed? || op.RotateSent? || op.RotatePrechecked? || op.RotateCovered?
  }

  /** Steps that start or advance no command. */
  predicate OnlyEnds(step: Step) {
    OfNoCommand(step) || OnlyEndsOne(step)
  }

  predicate OfNoCommand(step: Step) {
    || step.RegisterKey? || step.DropDeviceWraps? || step.DeleteCredential? || step.ExpireCache? || step.DrawElsewhere?
    || step.CacheElsewhere?
  }

  predicate OnlyEndsOne(step: Step) {
    step.Crash? || step.InsertUpload? || step.InsertGrant? || step.ForgetCache? || step.CommitBootstrap?
  }

  ghost predicate KeepsRotations(s: State, t: State) {
    t.orgId == s.orgId && forall o | o in t.ops && Rotating(t.ops[o].op) :: o in s.ops && t.ops[o] == s.ops[o]
  }

  lemma TablesKeepCommands(s: State, step: Step)
    requires Enabled(s, step) && OfNoCommand(step)
    ensures Next(s, step).ops == s.ops && Next(s, step).orgId == s.orgId
  {
    match step
    case RegisterKey(_, _) =>
    case DropDeviceWraps(_, _) =>
    case DeleteCredential(_) =>
    case ExpireCache(_) =>
    case DrawElsewhere =>
    case CacheElsewhere(_, _, _) =>
  }

  lemma EndsOne(s: State, step: Step)
    requires Enabled(s, step) && OnlyEndsOne(step)
    ensures Next(s, step).ops == s.ops - {step.o} && Next(s, step).orgId == s.orgId
  {
    hide CommitBootstrapStep, InsertGrantStep;
    match step
    case Crash(_) =>
    case InsertUpload(_) =>
    case InsertGrant(o) => GrantEnds(s, o);
    case ForgetCache(_) =>
    case CommitBootstrap(o) => BootstrapFrame(s, o);
  }

  lemma GrantEnds(s: State, o: OpId)
    requires Enabled(s, InsertGrant(o))
    ensures InsertGrantStep(s, o).ops == s.ops - {o} && InsertGrantStep(s, o).orgId == s.orgId
  {
  }

  lemma EndingStepsKeepRotations(s: State, step: Step)
    requires Enabled(s, step) && OnlyEnds(step)
    ensures KeepsRotations(s, Next(s, step))
  {
    hide Next, Enabled;
    if OfNoCommand(step) {
      TablesKeepCommands(s, step);
    } else {
      EndsOne(s, step);
    }
  }

  lemma UnlockingStepsKeepRotations(s: State, step: Step)
    requires Enabled(s, step) && (step.Begin? || step.FetchWrap? || step.FetchElsewhere? || step.StoreCache?)
    ensures KeepsRotations(s, Next(s, step))
  {
    match step
    case Begin(_, _, _, _, _) =>
    case FetchWrap(o, keyId) => var _ := FetchedKey(s, o, keyId);
    case FetchElsewhere(_, _, _) =>
    case StoreCache(_, _) =>
  }

  lemma AdvanceKeepsRotations(s: State, o: OpId, op: Op)
    requires o in s.ops && !Rotating(op)
    ensures KeepsRotations(s, Advance(s, o, op))
  {
  }

  lemma EndKeepsRotations(s: State, o: OpId)
    ensures KeepsRotations(s, End(s, o))
  {
  }

  lemma SealKeepsRotations(s: State, o: OpId, id: string)
    requires Enabled(s, Seal(o, id))
    ensures KeepsRotations(s, SealStep(s, o, id))
  {
    hide SealForUpload;
  }

  lemma SendingStepsKeepRotations(s: State, step: Step)
    requires Enabled(s, step) && (step.Seal? || step.CheckUpload? || step.WrapForTarget? || step.CheckGrant?)
    ensures KeepsRotations(s, Next(s, step))
  {
    hide KeepsRotations, WrapVaultKey, SealStep, Advance, End, UploadVersionCurrent, GrantAllowed;
    EndKeepsRotations(s, step.o);
    match step
    case Seal(o, id) => SealKeepsRotations(s, o, id);
    case CheckUpload(o) =>
      var UploadSent(cred, envelope, own) := s.ops[o].op;
      AdvanceKeepsRotations(s, o, UploadChecked(cred, envelope, own));
    case WrapForTarget(o) =>
      var Ready(Grant(target), vault) := s.ops[o].op;
      var wrapped := WrapVaultKey(vault.vaultKey, s.keys[target].publicKey);
      AdvanceKeepsRotations(s, o, GrantSent(target, vault.vaultVersion, wrapped, vault.own));
    case CheckGrant(o) =>
      var GrantSent(target, version, wrapped, own) := s.ops[o].op;
      AdvanceKeepsRotations(s, o, GrantChecked(target, version, wrapped, own));
  }

  lemma RecoveryKeepsRotations(s: State, o: OpId, keyId: KeyId)
    requires Enabled(s, RegisterRecovery(o, keyId))
    ensures KeepsRotations(s, RegisterRecoveryStep(s, o, keyId))
  {
    hide WrapVaultKey;
  }

  lemma BootstrapStepsKeepRotations(s: State, step: Step)
    requires Enabled(s, step) && (step.BeginBootstrap? || step.RegisterRecovery? || step.CheckBootstrap?)
    ensures KeepsRotations(s, Next(s, step))
  {
    hide RegisterRecoveryStep, RecipientsAllowed;
    match step
    case BeginBootstrap(_, _, _, _) =>
    case RegisterRecovery(o, keyId) => RecoveryKeepsRotations(s, o, keyId);
    case CheckBootstrap(o) =>
      AdvanceKeepsRotations(s, o, BootChecked(s.ops[o].op.boot));
      EndKeepsRotations(s, o);
  }

  /** Only a rotation's own steps bring a rotation forward. */
  lemma OtherStepsKeepRotations(s: State, step: Step)
    requires Enabled(s, step) && !PreparesRotation(step)
    ensures KeepsRotations(s, Next(s, step))
  {
    hide Next, KeepsRotations;
    if OnlyEnds(step) {
      EndingStepsKeepRotations(s, step);
    } else if step.Begin? || step.FetchWrap? || step.FetchElsewhere? || step.StoreCache? {
      UnlockingStepsKeepRotations(s, step);
    } else if step.BeginBootstrap? || step.RegisterRecovery? || step.CheckBootstrap? {
      BootstrapStepsKeepRotations(s, step);
    } else {
      SendingStepsKeepRotations(s, step);
    }
  }

  lemma OtherStepsKeepHistory(s: State, step: Step)
    requires Enabled(s, step) && !step.CommitRotate? && !(step.CommitBootstrap? && s.vault.None?)
    ensures Next(s, step).history == s.history
    ensures !step.InsertUpload? && !step.DeleteCredential? ==> Next(s, step).creds == s.creds
  {
    if !WritesCreds(step) {
      OtherStepsKeepRows(s, step);
    }
  }

  /** The command `o` goes on as `op`, or ends; tables, keys and the others stay. */
  ghost predicate Goes(s: State, t: State, o: OpId, op: Op) {
    && t.orgId == s.orgId && t.creds == s.creds && t.history == s.history && OthersKept(s, t, o)
    && (o in t.ops ==> o in s.ops && t.ops[o] == s.ops[o].(op := op))
  }

  /** What `Stuck` asks of one command. */
  predicate StuckOp(t: State, c: Command, v: nat, r: CredRef) {
    && (RotationOf(c.op).Some? ==> CarriesUpTo(RotationOf(c.op).value, v, r))
    && (c.op.RotateCovered? ==> c.op.rotation.fromVersion <= v)
    && (c.op.RotateListed? ==> ListsUpTo(t, c, v, r))
  }

  lemma GoesStuck(s: State, t: State, o: OpId, op: Op, v: nat, r: CredRef)
    requires Goes(s, t, o, op) && Stuck(s, v, r) && r in s.creds
    requires o in t.ops ==> StuckOp(s, t.ops[o], v, r)
    ensures Stuck(t, v, r)
  {
  }

  lemma AdvanceGoes(s: State, o: OpId, op: Op)
    requires o in s.ops
    ensures Goes(s, Advance(s, o, op), o, op) && Goes(s, End(s, o), o, op) && o !in End(s, o).ops
    ensures o in Advance(s, o, op).ops && Advance(s, o, op).ops[o] == s.ops[o].(op := op)
  {
  }

  lemma RewrapStaysStuck(s: State, o: OpId, v: nat, r: CredRef)
    requires Enabled(s, Rewrap(o)) && OpOk(s, s.ops[o].op) && r in s.creds && Stuck(s, v, r)
    ensures Stuck(RewrapStep(s, o), v, r)
  {
    var c := s.ops[o];
    var RotateListed(vault, newKey, recipients, listed) := c.op;
    assert ListsUpTo(s, c, v, r);
    if AllUnwrap(c.orgId, listed, vault.vaultKey) {
      RewrapsUpTo(s, c, v, r);
      var op := RotateSent(Rewrapped(s, c.orgId, vault, newKey, recipients, listed));
      AdvanceGoes(s, o, op);
      hide Stuck, ListsUpTo, AllUnwrap, OpOk, Goes, Advance;
      GoesStuck(s, Advance(s, o, op), o, op, v, r);
    } else {
      AdvanceGoes(s, o, c.op);
      hide Stuck, ListsUpTo, AllUnwrap, OpOk, Goes, End;
      GoesStuck(s, End(s, o), o, c.op, v, r);
    }
  }

  lemma RewrapsUpTo(s: State, c: Command, v: nat, r: CredRef)
    requires c.op.RotateListed? && OpOk(s, c.op) && ListsUpTo(s, c, v, r)
    requires AllUnwrap(c.orgId, c.op.listed, c.op.vault.vaultKey)
    ensures r in c.op.listed ==> c.op.vault.own && c.op.vault.vaultVersion <= v
  {
    if r in c.op.listed {
      assert ListedOk(s, r, c.op.listed[r]);
      UnwrapsUnder(c.orgId, r, c.op.listed[r], c.op.vault.vaultKey);
      assert RawDek(c.orgId, r, c.op.listed[r], c.op.vault.vaultKey).Some?;
    }
  }

  lemma ListStaysStuck(s: State, o: OpId, listed: map<CredRef, ListedDek>, v: nat, r: CredRef)
    requires o in s.ops && s.ops[o].op.Ready? && s.ops[o].op.task.Rotate? && OpOk(s, s.ops[o].op)
    requires r in s.creds && Stuck(s, v, r)
    requires r in listed ==>
               && s.ops[o].op.vault.own && s.ops[o].orgId == s.orgId
               && listed[r].wrappedDek == s.creds[r].wrappedDek
    ensures Stuck(ListStep(s, o, listed), v, r)
  {
    assert UnlockedOk(s, s.ops[o].op.vault);
    var op := RotateListed(s.ops[o].op.vault, s.nextKey, s.ops[o].op.task.recipients, listed);
    assert ListsUpTo(s, s.ops[o].(op := op), v, r);
    ListGoes(s, o, listed, op);
    hide ListStep, Goes, Stuck, ListsUpTo, UnlockedOk;
    GoesStuck(s, ListStep(s, o, listed), o, op, v, r);
  }

  lemma ListGoes(s: State, o: OpId, listed: map<CredRef, ListedDek>, op: Op)
    requires o in s.ops && s.ops[o].op.Ready? && s.ops[o].op.task.Rotate?
    requires op == RotateListed(s.ops[o].op.vault, s.nextKey, s.ops[o].op.task.recipients, listed)
    ensures Goes(s, ListStep(s, o, listed), o, op) && o in ListStep(s, o, listed).ops
    ensures ListStep(s, o, listed).ops[o] == s.ops[o].(op := op)
  {
  }

  lemma CommitsKeepOps(s: State, t: State, o: OpId, rotation: Rotation)
    requires BatchFrame(s, t, o, rotation)
    ensures forall p | p in t.ops && (RotationOf(t.ops[p].op).Some? || t.ops[p].op.RotateListed?) ::
              p in s.ops && t.ops[p] == s.ops[p]
  {
  }

  lemma WonStaysStuck(s: State, t: State, o: OpId, rotation: Rotation, v: nat, r: CredRef)
    requires BatchFrame(s, t, o, rotation) && BatchWon(s, t, rotation)
    requires r in s.creds && Settled(s, s.creds[r].wrappedDek.key) && !Settled(s, rotation.newKey)
    requires Stuck(s, v, r) && rotation.fromVersion <= v
    requires CoversAtVersion(s, rotation, r) ==> rotation.deks[r].binding.orgId != s.orgId
    ensures Stuck(t, v, r)
  {
    hide Settled;
    assert t.creds[r] == RewrittenRow(s.creds[r], r, rotation);
    CommitsKeepOps(s, t, o, rotation);
  }

  lemma LostStaysStuck(s: State, t: State, o: OpId, rotation: Rotation, v: nat, r: CredRef)
    requires BatchFrame(s, t, o, rotation) && BatchLost(s, t, rotation) && rotation.newKey !in t.history
    requires r in s.creds && Stuck(s, v, r) && (r in rotation.deks ==> rotation.deks[r].key == rotation.newKey)
    ensures Stuck(t, v, r)
  {
    assert t.creds[r] == RewrittenRow(s.creds[r], r, rotation);
    CommitsKeepOps(s, t, o, rotation);
  }

  /** What a rotation at its batch knows of a stored row, and what becomes of its key. */
  lemma CommitRow(s: State, o: OpId, r: CredRef)
    requires Inv(s) && Enabled(s, CommitRotate(o)) && r in s.creds
    ensures
      var rotation := s.ops[o].op.rotation;
      && Settled(s, s.creds[r].wrappedDek.key) && !Settled(s, rotation.newKey)
      && (r in rotation.deks ==>
            && rotation.deks[r].key == rotation.newKey
            && rotation.deks[r].binding.orgId == s.creds[r].wrappedDek.binding.orgId)
      && RotationOf(s.ops[o].op) == Some(rotation)
  {
    CoveredRotation(s, o);
    assert RowOk(s, r, s.creds[r]);
    assert r in s.ops[o].op.rotation.deks ==> RewrappedOk(s, r, s.ops[o].op.rotation);
  }

  lemma CommitStaysStuck(s: State, t: State, o: OpId, v: nat, r: CredRef)
    requires Enabled(s, CommitRotate(o)) && t == CommitRotateStep(s, o)
    requires r in s.creds && !Healthy(s, r) && Stuck(s, v, r)
    requires Inv(s)
    ensures Stuck(t, v, r)
  {
    hide Inv, Healthy, Settled, CommitRotateStep, WinsCas, Stuck;
    CommitRow(s, o, r);
    if WinsCas(s, s.ops[o].op.rotation) {
      WonCommitStaysStuck(s, t, o, v, r);
    } else {
      LostCommitStaysStuck(s, t, o, v, r);
    }
  }

  lemma StuckRotation(s: State, o: OpId, v: nat, r: CredRef)
    requires r in s.creds && Stuck(s, v, r) && o in s.ops && s.ops[o].op.RotateCovered?
    ensures s.ops[o].op.rotation.fromVersion <= v
    ensures r in s.ops[o].op.rotation.deks ==> s.ops[o].op.rotation.vault.own
  {
    assert RotationOf(s.ops[o].op) == Some(s.ops[o].op.rotation);
  }

  /** What a winning rotation writes over a row it covers, that did not open, still does not open here. */
  lemma WonRowRefuses(s: State, o: OpId, v: nat, r: CredRef)
    requires Enabled(s, CommitRotate(o)) && WinsCas(s, s.ops[o].op.rotation) && r in s.creds && !Healthy(s, r)
    requires Stuck(s, v, r) && CoversAtVersion(s, s.ops[o].op.rotation, r)
    requires Inv(s)
    ensures s.ops[o].op.rotation.deks[r].binding.orgId != s.orgId
  {
    hide Inv, Healthy, Stuck, WinsCas, Settled;
    CommitRow(s, o, r);
    StuckRotation(s, o, v, r);
    RotationCoversHealthy(s, o, r);
  }

  lemma WonCommitStaysStuck(s: State, t: State, o: OpId, v: nat, r: CredRef)
    requires Enabled(s, CommitRotate(o)) && t == CommitRotateStep(s, o)
    requires WinsCas(s, s.ops[o].op.rotation) && r in s.creds && !Healthy(s, r) && Stuck(s, v, r)
    requires Inv(s)
    ensures Stuck(t, v, r)
  {
    hide HistoryOk, WrapsOk, RecoveryOk, CachesOk, PendingOk, UploadsOk, CredsOk, OpsOk, WrapsFor, Healthy, Settled,
      CommitRotateStep, WinsCas, BatchFrame, BatchWon, Stuck, CoversAtVersion;
    WonBatch(s, o);
    hide Inv;
    CommitRow(s, o, r);
    StuckRotation(s, o, v, r);
    if CoversAtVersion(s, s.ops[o].op.rotation, r) {
      WonRowRefuses(s, o, v, r);
    }
    WonStaysStuck(s, t, o, s.ops[o].op.rotation, v, r);
  }

  lemma LostCommitStaysStuck(s: State, t: State, o: OpId, v: nat, r: CredRef)
    requires Enabled(s, CommitRotate(o)) && t == CommitRotateStep(s, o)
    requires !WinsCas(s, s.ops[o].op.rotation) && r in s.creds && Stuck(s, v, r)
    requires r in s.ops[o].op.rotation.deks ==> s.ops[o].op.rotation.deks[r].key == s.ops[o].op.rotation.newKey
    requires Inv(s)
    ensures Stuck(t, v, r)
  {
    hide CommitRotateStep, BatchFrame, BatchLost, WinsCas, WrapsOk, RecoveryOk, CachesOk, UploadsOk, CredsOk, OpsOk,
      HistoryOk, PendingOk, Stuck, Settled, RewrappedOk, UnlockedOk, WrapsFor, RecipientsOk;
    var rotation := s.ops[o].op.rotation;
    CoveredRotation(s, o);
    BatchShape(s, o);
    BatchSettlesKey(s, t, o, rotation);
    hide Inv;
    LostStaysStuck(s, t, o, rotation, v, r);
  }

  lemma ChecksStayStuck(s: State, step: Step, v: nat, r: CredRef)
    requires Enabled(s, step) && (step.CheckRotate? || step.CheckCoverage?)
    requires r in s.creds && Stuck(s, v, r)
    ensures Stuck(Next(s, step), v, r)
  {
    var o := step.o;
    var rotation := s.ops[o].op.rotation;
    assert RotationOf(s.ops[o].op) == Some(rotation);
    var op := if step.CheckRotate? then RotatePrechecked(rotation) else RotateCovered(rotation);
    assert CarriesUpTo(rotation, v, r);
    AdvanceGoes(s, o, op);
    hide Stuck, Goes, Advance, End, RecipientsAllowed, WinsCas;
    GoesStuck(s, Next(s, step), o, op, v, r);
  }

  lemma FirstVersionStuck(s: State, t: State, o: OpId, v: nat, r: CredRef)
    requires t.ops == s.ops - {o} && t.orgId == s.orgId && t.creds == s.creds && r in s.creds && Stuck(s, v, r)
    requires |t.history| == 1 && s.creds[r].wrappedDek.key != t.history[0]
    ensures Stuck(t, v, r)
  {
  }

  lemma BootstrapStaysStuck(s: State, t: State, o: OpId, v: nat, r: CredRef)
    requires Enabled(s, CommitBootstrap(o)) && t == CommitBootstrapStep(s, o)
    requires s.vault.None? && r in s.creds && Stuck(s, v, r)
    requires Inv(s)
    ensures Stuck(t, v, r)
  {
    hide Inv, CommitBootstrapStep, Stuck;
    FirstKeyIsNew(s, o, t, r);
    BootstrapFrame(s, o);
    FirstVersionStuck(s, t, o, v, r);
  }

  lemma OtherStepsStayStuck(s: State, step: Step, v: nat, r: CredRef)
    requires Enabled(s, step) && !PreparesRotation(step) && !(step.CommitBootstrap? && s.vault.None?)
    requires r in s.creds && Stuck(s, v, r) && (step.InsertUpload? ==> s.ops[step.o].op.cred != r)
    ensures Stuck(Next(s, step), v, r)
  {
    var t := Next(s, step);
    OtherStepsKeepRotations(s, step);
    OtherStepsKeepHistory(s, step);
    if r in t.creds {
      assert t.creds[r] == s.creds[r];
    }
    forall p | p in t.ops && (RotationOf(t.ops[p].op).Some? || t.ops[p].op.RotateListed?)
      ensures p in s.ops && t.ops[p] == s.ops[p]
    {
      assert Rotating(t.ops[p].op);
    }
  }

  lemma StepStaysStuck(s: State, step: Step, v: nat, r: CredRef)
    requires Inv(s) && Enabled(s, step) && r in s.landed && !Healthy(s, r) && Stuck(s, v, r)
    requires step.ListDeks? ==> s.ops[step.o].op.vault.own && s.ops[step.o].orgId == s.orgId
    ensures Stuck(Next(s, step), v, r)
  {
    hide Inv, Healthy, Grows, Stuck, Next;
    StepKeeps(s, step);
    LandedGrows(s, Next(s, step));
    if r in s.creds {
      StoredStaysStuck(s, step, v, r);
    } else {
      GoneIsStuck(s, Next(s, step), v, r);
    }
  }

  lemma GoneIsStuck(s: State, t: State, v: nat, r: CredRef)
    requires r !in s.creds && (r in t.creds ==> r in s.creds)
    ensures Stuck(t, v, r)
  {
  }

  lemma OpIsOk(s: State, o: OpId)
    requires Inv(s) && o in s.ops
    ensures OpOk(s, s.ops[o].op)
  {
  }

  lemma OthersInsert(s: State, step: Step, r: CredRef)
    requires Inv(s) && Enabled(s, step) && r in s.landed
    ensures step.InsertUpload? ==> s.ops[step.o].op.cred != r
  {
    if step.InsertUpload? {
      InsertsNew(s, step.o);
    }
  }

  lemma StoredStaysStuck(s: State, step: Step, v: nat, r: CredRef)
    requires Inv(s) && Enabled(s, step) && r in s.landed && r in s.creds && !Healthy(s, r) && Stuck(s, v, r)
    requires step.ListDeks? ==> s.ops[step.o].op.vault.own && s.ops[step.o].orgId == s.orgId
    ensures Stuck(Next(s, step), v, r)
  {
    hide Inv, Healthy, Stuck, OpOk, FetchedKey, SealStep, InsertGrantStep, RewrapStep, CommitRotateStep,
      RegisterRecoveryStep, CommitBootstrapStep;
    if step.ListDeks? || step.ListElsewhere? {
      OpIsOk(s, step.o);
      ListStaysStuck(s, step.o, if step.ListDeks? then Listing(s) else map[], v, r);
    } else if step.Rewrap? {
      OpIsOk(s, step.o);
      RewrapStaysStuck(s, step.o, v, r);
    } else if step.CommitRotate? {
      CommitStaysStuck(s, Next(s, step), step.o, v, r);
    } else if PreparesRotation(step) {
      ChecksStayStuck(s, step, v, r);
    } else if step.CommitBootstrap? && s.vault.None? {
      BootstrapStaysStuck(s, Next(s, step), step.o, v, r);
    } else {
      OthersInsert(s, step, r);
      OtherStepsStayStuck(s, step, v, r);
    }
  }

  /** Every listing of the run is taken by a command working with this organization's key for this organization. */
  ghost predicate OwnListings(s: State, steps: seq<Step>)
    requires CanRun(s, steps)
    decreases |steps|
  {
    steps != [] ==>
      && (steps[0].ListDeks? ==> s.ops[steps[0].o].op.vault.own && s.ops[steps[0].o].orgId == s.orgId)
      && OwnListings(Next(s, steps[0]), steps[1..])
  }

  lemma NotHealedWhileStuck(s: State, step: Step, v: nat, r: CredRef)
    requires Inv(s) && Enabled(s, step) && r in s.landed && !Healthy(s, r) && Stuck(s, v, r)
    ensures !Healthy(Next(s, step), r)
  {
    hide Inv, Healthy, Next, Stuck;
    if Healthy(Next(s, step), r) {
      HealedByStrayRotation(s, step, r);
      StuckRotation(s, step.o, v, r);
    }
  }

  lemma {:induction false} RunStaysStuck(s: State, steps: seq<Step>, v: nat, r: CredRef)
    requires Inv(s) && CanRun(s, steps) && OwnListings(s, steps) && r in s.landed && !Healthy(s, r) && Stuck(s, v, r)
    requires r in After(s, steps).creds
    ensures Stuck(After(s, steps), v, r)
    decreases |steps|
  {
    if steps != [] {
      var t := Next(s, steps[0]);
      hide Inv, Healthy, Stuck, Next;
      StepStaysStuck(s, steps[0], v, r);
      NotHealedWhileStuck(s, steps[0], v, r);
      StepKeeps(s, steps[0]);
      LandedGrows(s, t);
      RunStaysStuck(t, steps[1..], v, r);
    }
  }

  /**
   * Once a stored credential does not open under the current key, the vault moves on
   * by at most one more version for as long as that row stays stored and the rotations that
   * list it work with this organization's keys for this organization: only one already
   * under way can still commit, and every later one fails to re-wrap the row.
   */
  lemma RotationStops(s: State, steps: seq<Step>, r: CredRef)
    requires Inv(s) && CanRun(s, steps) && r in s.creds && !Healthy(s, r)
    requires OwnListings(s, steps)
    requires forall o | o in s.ops && RotationOf(s.ops[o].op).Some? && r in RotationOf(s.ops[o].op).value.deks ::
               RotationOf(s.ops[o].op).value.vault.own
    requires forall o | o in s.ops && s.ops[o].op.RotateListed? && r in s.ops[o].op.listed :: s.ops[o].op.vault.own
    requires r in After(s, steps).creds
    ensures |After(s, steps).history| <= |s.history| + 1
  {
    forall o | o in s.ops
      ensures RotationOf(s.ops[o].op).Some? ==> CarriesUpTo(RotationOf(s.ops[o].op).value, |s.history|, r)
      ensures s.ops[o].op.RotateCovered? ==> s.ops[o].op.rotation.fromVersion <= |s.history|
      ensures s.ops[o].op.RotateListed? ==> ListsUpTo(s, s.ops[o], |s.history|, r)
    {
      OpUpToNow(s, o);
    }
    assert r in s.landed && Stuck(s, |s.history|, r);
    hide Inv, Stuck, CanRun, After, Healthy;
    RunStaysStuck(s, steps, |s.history|, r);
    StuckMeans(After(s, steps), |s.history|, r);
  }

  lemma OpUpToNow(s: State, o: OpId)
    requires Inv(s) && o in s.ops
    ensures RotationOf(s.ops[o].op).Some? && RotationOf(s.ops[o].op).value.vault.own ==>
              RotationOf(s.ops[o].op).value.fromVersion <= |s.history|
    ensures s.ops[o].op.RotateCovered? ==> s.ops[o].op.rotation.fromVersion <= |s.history|
    ensures s.ops[o].op.RotateListed? && s.ops[o].op.vault.own ==> s.ops[o].op.vault.vaultVersion <= |s.history|
  {
    assert OpOk(s, s.ops[o].op);
  }

  lemma StuckMeans(t: State, v: nat, r: CredRef)
    requires Stuck(t, v, r) && r in t.creds
    ensures |t.history| <= v + 1
  {
  }

  /**
   * A rotation gets past its listing exactly when every listed row is under its key and
   * bound to the organization it read.
   */
  lemma RewrapGoesOn(s: State, o: OpId)
    requires Inv(s) && Enabled(s, Rewrap(o))
    ensures
      var RotateListed(vault, _, _, listed) := s.ops[o].op;
      o in RewrapStep(s, o).ops <==> forall r | r in listed :: Unwraps(listed[r], vault.vaultKey, s.ops[o].orgId)
  {
    OpIsOk(s, o);
    ListUnwraps(s, s.ops[o].orgId, s.ops[o].op);
    hide Inv, OpOk, AllUnwrap, Rewrapped;
  }

  predicate Unwraps(listed: ListedDek, vaultKey: Key, orgId: string) {
    listed.wrappedDek.key == vaultKey && listed.wrappedDek.binding.orgId == orgId
  }

  lemma ListUnwraps(s: State, orgId: string, op: Op)
    requires op.RotateListed? && OpOk(s, op)
    ensures AllUnwrap(orgId, op.listed, op.vault.vaultKey) <==>
              forall r | r in op.listed :: Unwraps(op.listed[r], op.vault.vaultKey, orgId)
  {
    hide RawDek, UnlockedOk;
    forall r | r in op.listed
      ensures RawDek(orgId, r, op.listed[r], op.vault.vaultKey).Some? <==>
                Unwraps(op.listed[r], op.vault.vaultKey, orgId)
    {
      assert ListedOk(s, r, op.listed[r]);
      UnwrapsUnder(orgId, r, op.listed[r], op.vault.vaultKey);
    }
  }

  // ---------------------------------------------------------------- stale commands

  /** The vault version a request carries to the server's first version check. */
  function Carries(op: Op): Option<nat> {
    match op
    case UploadSent(_, e, _) => Some(e.vaultVersion)
    case GrantChecked(_, version, _, _) => Some(version)
    case RotateSent(r) => Some(r.fromVersion)
    case _ => None
  }

  predicate ChecksVersion(step: Step) {
    step.CheckUpload? || step.InsertGrant? || step.CheckRotate?
  }

  /**
   * A grant, an upload or a rotation that reaches its first version check with any
   * version but the current one just ends and changes nothing but itself, a rotation
   * without credentials included; the one exception is an upload to an organization
   * that has no vault, which the check lets through with any version.
   */
  lemma StaleCommandsEnd(s: State, step: Step)
    requires Inv(s) && Enabled(s, step) && ChecksVersion(step)
    requires Carries(s.ops[step.o].op) != Some(|s.history|)
    ensures Next(s, step) == End(s, step.o) <==> !(step.CheckUpload? && s.vault.None?)
  {
    hide WrapsOk, RecoveryOk, CachesOk, PendingOk, UploadsOk, CredsOk, UploadOk, RotationOk;
    assert OpOk(s, s.ops[step.o].op);
    assert step.o !in End(s, step.o).ops;
  }

  // ---------------------------------------------------------------- bootstrap

  /** How many bootstraps a run commits. */
  ghost function Bootstraps(s: State, steps: seq<Step>): nat
    requires CanRun(s, steps)
    decreases |steps|
  {
    if steps == [] then 0
    else
      (if steps[0].CommitBootstrap? && Next(s, steps[0]).vault != s.vault then 1 else 0)
      + Bootstraps(Next(s, steps[0]), steps[1..])
  }

  lemma VaultStays(s: State, step: Step)
    requires Inv(s) && Enabled(s, step) && Inv(Next(s, step)) && Grows(s, Next(s, step))
    ensures s.vault.Some? ==> Next(s, step).vault.Some?
    ensures step.CommitBootstrap? ==> (Next(s, step).vault != s.vault <==> s.vault.None?)
    ensures step.CommitBootstrap? ==> Next(s, step).vault.Some?
  {
    hide WrapsOk, RecoveryOk, CachesOk, PendingOk, UploadsOk, CredsOk, OpsOk, CommitBootstrapStep, CommitRotateStep,
      SealStep, RewrapStep, FetchedKey, InsertGrantStep, RegisterRecoveryStep;
    if step.CommitBootstrap? {
      BootstrapFrame(s, step.o);
    }
  }

  /** A vault, once there, stays, and no later bootstrap commits. */
  lemma {:induction false} AtMostOneBootstrap(s: State, steps: seq<Step>)
    requires Inv(s) && CanRun(s, steps)
    ensures Bootstraps(s, steps) <= if s.vault.Some? then 0 else 1
    ensures s.vault.Some? ==> After(s, steps).vault.Some?
    decreases |steps|
  {
    hide Inv, Next;
    if steps != [] {
      StepKeeps(s, steps[0]);
      VaultStays(s, steps[0]);
      AtMostOneBootstrap(Next(s, steps[0]), steps[1..]);
    }
  }

  /**
   * Every step of a bootstrap but a winning commit, those of a loser of a race taken
   * before any vault exists included, adds at most one registered key and nothing else.
   */
  lemma LosingBootstrapOnlyRegisters(s: State, step: Step)
    requires Enabled(s, step) && OfBootstrap(step) && (step.CommitBootstrap? ==> s.vault.Some?)
    ensures
      var t := Next(s, step);
      && t.vault == s.vault && t.wraps == s.wraps && t.creds == s.creds && t.history == s.history
      && t.caches == s.caches
      && (t.keys == s.keys <==> !step.RegisterRecovery?)
      && (step.RegisterRecovery? ==> t.keys - {step.keyId} == s.keys)
  {
    hide Next, Enabled;
    if step.RegisterRecovery? {
      RecoveryOnlyRegisters(s, step.o, step.keyId);
    } else if step.CommitBootstrap? {
      LateBootstrapEnds(s, step.o);
    } else {
      TalkKeepsTables(s, step);
    }
  }

  lemma RecoveryOnlyRegisters(s: State, o: OpId, keyId: KeyId)
    requires Enabled(s, RegisterRecovery(o, keyId))
    ensures
      var t := Next(s, RegisterRecovery(o, keyId));
      && t.vault == s.vault && t.wraps == s.wraps && t.creds == s.creds && t.history == s.history
      && t.caches == s.caches && t.keys - {keyId} == s.keys && t.keys != s.keys
  {
    hide WrapVaultKey;
    assert keyId in RegisterRecoveryStep(s, o, keyId).keys;
  }

  lemma LateBootstrapEnds(s: State, o: OpId)
    requires Enabled(s, CommitBootstrap(o)) && s.vault.Some?
    ensures TablesKept(s, Next(s, CommitBootstrap(o)))
  {
  }
}
