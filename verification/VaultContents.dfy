/** What comes out of the vault is what an upload was begun with. */
module VaultContents {
  import opened Wrappers
  import opened Crypto
  import opened CredentialCipher
  import opened VaultModel
  import opened VaultFrames
  import opened VaultInvariant
  import opened VaultPreserved
  import opened VaultHealth
  import opened VaultStale

  // ---------------------------------------------------------------- where a sealed record comes from

  function TaskOf(op: Op): Option<Task> {
    match op
    case Unlocking(task) => Some(task)
    case Fetched(task, _) => Some(task)
    case Ready(task, _) => Some(task)
    case _ => None
  }

  /** A command with this organization and task is in flight. */
  ghost predicate Carried(s: State, orgId: string, task: Task) {
    exists o :: o in s.ops && s.ops[o].orgId == orgId && TaskOf(s.ops[o].op) == Some(task)
  }

  predicate Begins(step: Step, orgId: string, task: Task) {
    step.Begin? && step.orgId == orgId && step.task == task
  }

  /** The upload that such a sealing is of. */
  function UploadTask(r: CredRef, sealed: SealedDek): Task {
    Upload(r.credentialType, sealed.metadata, sealed.secret)
  }

  /** The command keeps its organization and, while it has one, its task. */
  ghost predicate KeepsTask(s: State, t: State, o: OpId) {
    o in t.ops && TaskOf(t.ops[o].op).Some? ==>
      o in s.ops && t.ops[o].orgId == s.ops[o].orgId && TaskOf(t.ops[o].op) == TaskOf(s.ops[o].op)
  }

  lemma AdvanceKeepsTask(s: State, o: OpId, op: Op)
    requires o in s.ops && (TaskOf(op).None? || TaskOf(op) == TaskOf(s.ops[o].op))
    ensures KeepsTask(s, Advance(s, o, op), o)
  {
  }

  lemma EndKeepsTask(s: State, o: OpId)
    ensures KeepsTask(s, End(s, o), o)
  {
  }

  lemma UnlockingKeepsTask(s: State, step: Step)
    requires Enabled(s, step) && (step.FetchWrap? || step.FetchElsewhere? || step.StoreCache?)
    ensures KeepsTask(s, Next(s, step), step.o)
  {
    hide UnwrapVaultKey;
    match step
    case FetchWrap(o, keyId) => var _ := FetchedKey(s, o, keyId);
    case FetchElsewhere(_, _, _) =>
    case StoreCache(_, _) =>
  }

  lemma SealKeepsTask(s: State, o: OpId, id: string)
    requires Enabled(s, Seal(o, id))
    ensures KeepsTask(s, SealStep(s, o, id), o)
  {
    hide SealForUpload;
  }

  lemma ListKeepsTask(s: State, o: OpId, listed: map<CredRef, ListedDek>)
    requires o in s.ops && s.ops[o].op.Ready? && s.ops[o].op.task.Rotate?
    ensures KeepsTask(s, ListStep(s, o, listed), o)
  {
  }

  lemma RewrapKeepsTask(s: State, o: OpId)
    requires Enabled(s, Rewrap(o))
    ensures KeepsTask(s, RewrapStep(s, o), o)
  {
    hide AllUnwrap, Rewrapped;
  }

  lemma PreparingKeepsTask(s: State, step: Step)
    requires Enabled(s, step) && Prepares(step)
    ensures KeepsTask(s, Next(s, step), step.o)
  {
    hide KeepsTask, Advance, End, WrapVaultKey, GrantAllowed, SealStep, ListStep, RewrapStep, Listing;
    EndKeepsTask(s, step.o);
    match step
    case Crash(_) =>
    case Seal(o, id) => SealKeepsTask(s, o, id);
    case WrapForTarget(o) =>
      var Ready(Grant(target), vault) := s.ops[o].op;
      var wrapped := WrapVaultKey(vault.vaultKey, s.keys[target].publicKey);
      AdvanceKeepsTask(s, o, GrantSent(target, vault.vaultVersion, wrapped, vault.own));
    case CheckGrant(o) =>
      var GrantSent(target, version, wrapped, own) := s.ops[o].op;
      AdvanceKeepsTask(s, o, GrantChecked(target, version, wrapped, own));
    case ListDeks(o) => ListKeepsTask(s, o, Listing(s));
    case ListElsewhere(o) => ListKeepsTask(s, o, map[]);
    case Rewrap(o) => RewrapKeepsTask(s, o);
  }

  /** Past its preparation a command has no task left. */
  lemma DoneKeepsTask(s: State, step: Step)
    requires Enabled(s, step) && OfCommand(step) && !Starts(step) && !Prepares(step)
    requires !step.FetchWrap? && !step.FetchElsewhere? && !step.StoreCache?
    ensures KeepsTask(s, Next(s, step), step.o)
  {
    hide KeepsTask, Advance, End, UploadVersionCurrent, RecipientsAllowed, WinsCas, RegisterRecoveryStep,
      InsertGrantStep, CommitRotateStep, CommitBootstrapStep;
    EndKeepsTask(s, step.o);
    match step
    case CheckUpload(o) =>
      var UploadSent(cred, envelope, own) := s.ops[o].op;
      AdvanceKeepsTask(s, o, UploadChecked(cred, envelope, own));
    case CheckRotate(o) => AdvanceKeepsTask(s, o, RotatePrechecked(s.ops[o].op.rotation));
    case CheckCoverage(o) => AdvanceKeepsTask(s, o, RotateCovered(s.ops[o].op.rotation));
    case CheckBootstrap(o) => AdvanceKeepsTask(s, o, BootChecked(s.ops[o].op.boot));
    case InsertUpload(_) => WritersKeepTask(s, step);
    case InsertGrant(_) => WritersKeepTask(s, step);
    case CommitRotate(_) => WritersKeepTask(s, step);
    case ForgetCache(_) => WritersKeepTask(s, step);
    case RegisterRecovery(_, _) => WritersKeepTask(s, step);
    case CommitBootstrap(_) => WritersKeepTask(s, step);
  }

  lemma WritersKeepTask(s: State, step: Step)
    requires Enabled(s, step) && OfCommand(step) && !Talks(step) && !step.StoreCache?
    ensures KeepsTask(s, Next(s, step), step.o)
  {
    hide CommitRotateStep, CommitBootstrapStep, RegisterRecoveryStep;
    match step
    case InsertUpload(_) =>
    case InsertGrant(_) =>
    case CommitRotate(o) => CommitKeepsTask(s, o);
    case ForgetCache(_) =>
    case RegisterRecovery(o, keyId) => RecoveryKeepsTask(s, o, keyId);
    case CommitBootstrap(o) => BootstrapFrame(s, o);
  }

  lemma CommitKeepsTask(s: State, o: OpId)
    requires Enabled(s, CommitRotate(o))
    ensures KeepsTask(s, CommitRotateStep(s, o), o)
  {
    hide WrapRows, RewrittenRow, WinsCas;
  }

  lemma RecoveryKeepsTask(s: State, o: OpId, keyId: KeyId)
    requires Enabled(s, RegisterRecovery(o, keyId))
    ensures KeepsTask(s, RegisterRecoveryStep(s, o, keyId), o)
  {
    hide WrapVaultKey;
  }

  lemma CommandKeepsTask(s: State, step: Step, o: OpId)
    requires Enabled(s, step) && !(StepOf(step, o) && Starts(step))
    ensures KeepsTask(s, Next(s, step), o)
  {
    hide Next, Enabled, TaskOf;
    if !StepOf(step, o) {
      OtherStepsLeave(s, step, o);
    } else if step.FetchWrap? || step.FetchElsewhere? || step.StoreCache? {
      UnlockingKeepsTask(s, step);
    } else if Prepares(step) {
      PreparingKeepsTask(s, step);
    } else {
      DoneKeepsTask(s, step);
    }
  }

  lemma BegunTask(s: State, step: Step, o: OpId)
    requires Enabled(s, step) && StepOf(step, o) && Starts(step)
    ensures
      var t := Next(s, step);
      TaskOf(t.ops[o].op).Some? ==> Begins(step, t.ops[o].orgId, TaskOf(t.ops[o].op).value)
  {
  }

  /** A task in flight was so before, or the step begins it. */
  lemma TaskFromBegin(s: State, step: Step, t: State, orgId: string, task: Task)
    requires Enabled(s, step) && t == Next(s, step) && Carried(t, orgId, task)
    ensures Carried(s, orgId, task) || Begins(step, orgId, task)
  {
    hide Next, Enabled, Starts, TaskOf;
    var o :| o in t.ops && t.ops[o].orgId == orgId && TaskOf(t.ops[o].op) == Some(task);
    if StepOf(step, o) && Starts(step) {
      BegunTask(s, step, o);
    } else {
      CommandKeepsTask(s, step, o);
    }
  }

  // ---------------------------------------------------------------- what is sealed

  lemma AdvanceKeepsDeks(s: State, o: OpId, op: Op)
    requires o in s.ops
    ensures Advance(s, o, op).deks == s.deks
  {
  }

  lemma EndKeepsDeks(s: State, o: OpId)
    ensures End(s, o).deks == s.deks
  {
  }

  lemma UnlockingKeepsDeks(s: State, step: Step)
    requires Enabled(s, step) && Unlocks(step)
    ensures Next(s, step).deks == s.deks
  {
    hide UnwrapVaultKey;
    match step
    case DrawElsewhere =>
    case Crash(_) =>
    case Begin(_, _, _, _, _) =>
    case FetchWrap(o, keyId) => var _ := FetchedKey(s, o, keyId);
    case FetchElsewhere(_, _, _) =>
  }

  lemma RewrapKeepsDeks(s: State, o: OpId)
    requires Enabled(s, Rewrap(o))
    ensures RewrapStep(s, o).deks == s.deks
  {
    hide AllUnwrap, Rewrapped;
  }

  lemma TalkKeepsDeks(s: State, step: Step)
    requires Enabled(s, step) && Talks(step) && !Checks(step) && !Unlocks(step) && !step.Seal?
    ensures Next(s, step).deks == s.deks
  {
    hide WrapVaultKey, Listing, RewrapStep;
    match step
    case WrapForTarget(_) =>
    case ListDeks(_) =>
    case ListElsewhere(_) =>
    case Rewrap(o) => RewrapKeepsDeks(s, o);
    case BeginBootstrap(_, _, _, _) =>
  }

  lemma ChecksKeepDeks(s: State, step: Step)
    requires Enabled(s, step) && Checks(step)
    ensures Next(s, step).deks == s.deks
  {
    hide Advance, End, UploadVersionCurrent, GrantAllowed, RecipientsAllowed, WinsCas;
    EndKeepsDeks(s, step.o);
    match step
    case CheckUpload(o) =>
      var UploadSent(cred, envelope, own) := s.ops[o].op;
      AdvanceKeepsDeks(s, o, UploadChecked(cred, envelope, own));
    case CheckGrant(o) =>
      var GrantSent(target, version, wrapped, own) := s.ops[o].op;
      AdvanceKeepsDeks(s, o, GrantChecked(target, version, wrapped, own));
    case CheckRotate(o) => AdvanceKeepsDeks(s, o, RotatePrechecked(s.ops[o].op.rotation));
    case CheckCoverage(o) => AdvanceKeepsDeks(s, o, RotateCovered(s.ops[o].op.rotation));
    case CheckBootstrap(o) => AdvanceKeepsDeks(s, o, BootChecked(s.ops[o].op.boot));
  }

  lemma TablesKeepDeks(s: State, step: Step)
    requires Enabled(s, step) && !OfCommand(step)
    ensures Next(s, step).deks == s.deks
  {
    match step
    case RegisterKey(_, _) =>
    case DropDeviceWraps(_, _) =>
    case DeleteCredential(_) =>
    case ExpireCache(_) =>
    case DrawElsewhere =>
    case CacheElsewhere(_, _, _) =>
  }

  lemma WritersKeepDeks(s: State, step: Step)
    requires Enabled(s, step) && OfCommand(step) && !Talks(step)
    ensures Next(s, step).deks == s.deks
  {
    hide WrapRows, RewrittenRow, WinsCas, WrapVaultKey;
    match step
    case StoreCache(_, _) =>
    case InsertUpload(_) =>
    case InsertGrant(_) =>
    case CommitRotate(_) =>
    case ForgetCache(_) =>
    case RegisterRecovery(_, _) =>
    case CommitBootstrap(_) =>
  }

  /** A seal records what its command carries, for its command's organization; no other step records anything. */
  lemma StepSeals(s: State, step: Step, r: CredRef)
    requires Enabled(s, step) && r in Next(s, step).deks
    ensures
      var sealed := Next(s, step).deks[r];
      || (r in s.deks && sealed == s.deks[r])
      || Carried(s, sealed.orgId, UploadTask(r, sealed))
  {
    if step.Seal? {
      SealRecords(s, step.o, step.id);
      hide Next;
      assert Carried(s, s.ops[step.o].orgId, s.ops[step.o].op.task);
    } else {
      hide Next, Enabled;
      if Checks(step) {
        ChecksKeepDeks(s, step);
      } else if Unlocks(step) {
        UnlockingKeepsDeks(s, step);
      } else if Talks(step) {
        TalkKeepsDeks(s, step);
      } else if OfCommand(step) {
        WritersKeepDeks(s, step);
      } else {
        TablesKeepDeks(s, step);
      }
    }
  }

  lemma SealRecords(s: State, o: OpId, id: string)
    requires Enabled(s, Seal(o, id))
    ensures
      var Command(_, orgId, Ready(Upload(credentialType, metadata, secret), _)) := s.ops[o];
      Next(s, Seal(o, id)).deks
        == s.deks[CredRef(credentialType, id) := SealedDek(s.nextKey, orgId, metadata, secret)]
  {
    hide SealForUpload;
  }

  ghost predicate BegunIn(steps: seq<Step>, orgId: string, task: Task) {
    exists step :: step in steps && Begins(step, orgId, task)
  }

  lemma {:induction false} SealedIsBegun(s: State, steps: seq<Step>, r: CredRef)
    requires CanRun(s, steps) && r in After(s, steps).deks
    ensures
      var sealed := After(s, steps).deks[r];
      || (r in s.deks && sealed == s.deks[r])
      || Carried(s, sealed.orgId, UploadTask(r, sealed))
      || BegunIn(steps, sealed.orgId, UploadTask(r, sealed))
    decreases |steps|
  {
    hide Next, Carried, Begins, Enabled, UploadTask;
    if steps != [] {
      var t := Next(s, steps[0]);
      var sealed := After(s, steps).deks[r];
      SealedIsBegun(t, steps[1..], r);
      if r in t.deks && sealed == t.deks[r] {
        StepSeals(s, steps[0], r);
      } else if Carried(t, sealed.orgId, UploadTask(r, sealed)) {
        TaskFromBegin(s, steps[0], t, sealed.orgId, UploadTask(r, sealed));
      }
    }
  }

  // ---------------------------------------------------------------- what opens

  lemma ContentsGive(s: State, r: CredRef, server: Record)
    requires Inv(s) && r in s.creds
    ensures r in s.deks && Gives(Contents(s.creds[r], server), s.deks[r].metadata, s.deks[r].secret, server)
  {
    assert RowOk(s, r, s.creds[r]);
    hide Inv, Settled, InRange, SealedFor, MetadataConsistent, JsonTrip, Disagrees, Survives;
    ConsistentMeans(s.deks[r].metadata, server);
    TripSurvives(s.deks[r].secret);
  }

  /** Some command of the run was begun to upload exactly this, for that organization. */
  ghost predicate Uploaded(steps: seq<Step>, r: CredRef, sealed: SealedDek) {
    BegunIn(steps, sealed.orgId, Upload(r.credentialType, sealed.metadata, sealed.secret))
  }

  /**
   * From the empty organization, over every run: whoever holds the true current key opens
   * a stored credential to the secret that an upload of the run was begun with, member by
   * member, and is refused where the server shows other metadata than that upload was
   * given, exactly when the last write of the row left it openable.
   */
  lemma OpensWhatWasUploaded(orgId: string, steps: seq<Step>, u: Unlocked, r: CredRef, server: Record)
    requires CanRun(Init(orgId), steps)
    requires TrueKey(After(Init(orgId), steps), u.vaultKey, |After(Init(orgId), steps).history|)
    requires r in After(Init(orgId), steps).creds
    ensures
      var s := After(Init(orgId), steps);
      && r in s.deks && Uploaded(steps, r, s.deks[r])
      && (RunOpens(Init(orgId), steps, r, false) <==>
            Gives(OpenStored(s, u, r, server), s.deks[r].metadata, s.deks[r].secret, server))
      && (OpenStored(s, u, r, server) == Err(UnwrapFailed) <==> !RunOpens(Init(orgId), steps, r, false))
  {
    InitOk(orgId);
    NothingCarried(orgId);
    hide Inv, OpenStored, Contents, RunOpens, CanRun, After, TrueKey, Carried, Disagrees, Survives, Init;
    RunKeeps(Init(orgId), steps);
    StoredCredentialOpens(orgId, steps, u, r, server);
    ContentsGive(After(Init(orgId), steps), r, server);
    SealedIsBegun(Init(orgId), steps, r);
  }

  lemma NothingCarried(orgId: string)
    ensures Init(orgId).deks == map[] && forall org, task :: !Carried(Init(orgId), org, task)
  {
  }
}
