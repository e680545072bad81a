/** Commands that the vault has left behind: whatever they still do, they write nothing. */
module VaultStale {
  import opened Wrappers
  import opened Crypto
  import opened CredentialCipher
  import opened VaultModel
  import opened VaultFrames
  import opened VaultInvariant
  import opened VaultPreserved
  import opened VaultTheorems

  /** The vault version a command holds, or sends, up to its first version check. */
  function HeldVersion(op: Op): Option<nat> {
    match op
    case Fetched(_, vault) => Some(vault.vaultVersion)
    case Ready(_, vault) => Some(vault.vaultVersion)
    case UploadSent(_, e, _) => Some(e.vaultVersion)
    case GrantSent(_, version, _, _) => Some(version)
    case GrantChecked(_, version, _, _) => Some(version)
    case RotateListed(vault, _, _, _) => Some(vault.vaultVersion)
    case RotateSent(r) => Some(r.fromVersion)
    case _ => None
  }

  /** The command is still before its first version check and holds a version the vault has left. */
  predicate Behind(s: State, o: OpId) {
    o in s.ops && HeldVersion(s.ops[o].op).Some? && HeldVersion(s.ops[o].op).value < |s.history|
  }

  /** It is, or has ended. */
  predicate BehindOrGone(s: State, o: OpId) {
    o in s.ops ==> Behind(s, o)
  }

  /** The server's tables are what they were. */
  predicate SameTables(s: State, t: State) {
    t.vault == s.vault && t.wraps == s.wraps && t.keys == s.keys && t.creds == s.creds && t.history == s.history
  }

  /** The other steps are the server's own, a keychain's, or happen elsewhere. */
  predicate OfCommand(step: Step) {
    && !step.RegisterKey? && !step.DropDeviceWraps? && !step.DeleteCredential?
    && !step.ExpireCache? && !step.DrawElsewhere? && !step.CacheElsewhere?
  }

  predicate StepOf(step: Step, o: OpId) {
    OfCommand(step) && step.o == o
  }

  predicate Starts(step: Step) {
    step.Begin? || step.BeginBootstrap?
  }

  // ---------------------------------------------------------------- its own steps

  /** The command holds the version it held, or has ended. */
  ghost predicate HoldsOn(s: State, t: State, o: OpId) {
    o in t.ops ==> o in s.ops && HeldVersion(t.ops[o].op) == HeldVersion(s.ops[o].op)
  }

  lemma EndHoldsOn(s: State, o: OpId)
    ensures HoldsOn(s, End(s, o), o)
  {
  }

  lemma AdvanceHoldsOn(s: State, o: OpId, op: Op)
    requires o in s.ops && HeldVersion(op) == HeldVersion(s.ops[o].op)
    ensures HoldsOn(s, Advance(s, o, op), o)
  {
  }

  lemma SealHoldsOn(s: State, o: OpId, id: string)
    requires Enabled(s, Seal(o, id))
    ensures HoldsOn(s, SealStep(s, o, id), o)
  {
    hide SealCredential;
  }

  lemma ListHoldsOn(s: State, o: OpId, listed: map<CredRef, ListedDek>)
    requires o in s.ops && s.ops[o].op.Ready? && s.ops[o].op.task.Rotate?
    ensures HoldsOn(s, ListStep(s, o, listed), o)
  {
  }

  lemma RewrapHoldsOn(s: State, o: OpId)
    requires Enabled(s, Rewrap(o))
    ensures HoldsOn(s, RewrapStep(s, o), o)
  {
    hide AllUnwrap, RawDek, WrapAll, HoldsOn, Advance, End;
    var RotateListed(vault, newKey, recipients, listed) := s.ops[o].op;
    EndHoldsOn(s, o);
    if AllUnwrap(s.ops[o].orgId, listed, vault.vaultKey) {
      AdvanceHoldsOn(s, o, RotateSent(Rewrapped(s, s.ops[o].orgId, vault, newKey, recipients, listed)));
    }
  }

  /** What a command does before its first version check. */
  predicate Prepares(step: Step) {
    || step.Crash? || step.Seal? || step.WrapForTarget? || step.CheckGrant? || step.ListDeks? || step.ListElsewhere?
    || step.Rewrap?
  }

  lemma PreparingHoldsOn(s: State, step: Step)
    requires Enabled(s, step) && Prepares(step)
    ensures HoldsOn(s, Next(s, step), step.o)
  {
    hide HoldsOn, Advance, End, WrapVaultKey, GrantAllowed, SealStep, ListStep, RewrapStep, Listing;
    EndHoldsOn(s, step.o);
    match step
    case Crash(_) =>
    case Seal(o, id) => SealHoldsOn(s, o, id);
    case WrapForTarget(o) =>
      var Ready(Grant(target), vault) := s.ops[o].op;
      var wrapped := WrapVaultKey(vault.vaultKey, s.keys[target].publicKey);
      AdvanceHoldsOn(s, o, GrantSent(target, vault.vaultVersion, wrapped, vault.own));
    case CheckGrant(o) =>
      var GrantSent(target, version, wrapped, own) := s.ops[o].op;
      AdvanceHoldsOn(s, o, GrantChecked(target, version, wrapped, own));
    case ListDeks(o) => ListHoldsOn(s, o, Listing(s));
    case ListElsewhere(o) => ListHoldsOn(s, o, map[]);
    case Rewrap(o) => RewrapHoldsOn(s, o);
  }

  lemma StoreHoldsOn(s: State, o: OpId, keep: bool)
    requires Enabled(s, StoreCache(o, keep))
    ensures SameTables(s, Next(s, StoreCache(o, keep))) && HoldsOn(s, Next(s, StoreCache(o, keep)), o)
  {
  }

  /** Nothing else is enabled while a command holds a version before its first check. */
  lemma BehindDoes(s: State, step: Step, o: OpId)
    requires Enabled(s, step) && StepOf(step, o) && !Starts(step) && Behind(s, o)
    ensures
      || Prepares(step) || step.StoreCache?
      || (ChecksVersion(step) && Carries(s.ops[o].op) == HeldVersion(s.ops[o].op))
  {
  }

  lemma CheckEnds(s: State, step: Step, o: OpId)
    requires Enabled(s, step) && StepOf(step, o) && ChecksVersion(step) && Behind(s, o)
    requires Carries(s.ops[o].op) == HeldVersion(s.ops[o].op) && Inv(s)
    ensures Next(s, step) == End(s, o)
  {
    hide Next;
    StaleCommandsEnd(s, step);
  }

  lemma OwnStepWritesNothing(s: State, step: Step, o: OpId)
    requires Enabled(s, step) && StepOf(step, o) && !Starts(step) && Behind(s, o)
    requires Inv(s)
    ensures SameTables(s, Next(s, step)) && BehindOrGone(Next(s, step), o)
  {
    BehindDoes(s, step, o);
    hide Inv, Next, End, Enabled;
    if Prepares(step) {
      TalkKeepsTables(s, step);
      PreparingHoldsOn(s, step);
    } else if step.StoreCache? {
      StoreHoldsOn(s, o, step.keep);
    } else {
      CheckEnds(s, step, o);
      EndKeepsTables(s, o);
      EndHoldsOn(s, o);
    }
  }

  // ---------------------------------------------------------------- the steps of others

  /** The command is as it was, or has ended. */
  ghost predicate Left(s: State, t: State, o: OpId) {
    o in t.ops ==> o in s.ops && t.ops[o] == s.ops[o]
  }

  lemma AdvanceLeaves(s: State, p: OpId, op: Op, o: OpId)
    requires p in s.ops && p != o
    ensures Left(s, Advance(s, p, op), o)
  {
  }

  lemma EndLeaves(s: State, p: OpId, o: OpId)
    ensures Left(s, End(s, p), o)
  {
  }

  lemma TablesLeave(s: State, step: Step, o: OpId)
    requires Enabled(s, step) && !OfCommand(step)
    ensures Left(s, Next(s, step), o)
  {
    match step
    case RegisterKey(_, _) =>
    case DropDeviceWraps(_, _) =>
    case DeleteCredential(_) =>
    case ExpireCache(_) =>
    case DrawElsewhere =>
    case CacheElsewhere(_, _, _) =>
  }

  lemma ChecksLeave(s: State, step: Step, o: OpId)
    requires Enabled(s, step) && Checks(step) && step.o != o
    ensures Left(s, Next(s, step), o)
  {
    hide Left, Advance, End, UploadVersionCurrent, GrantAllowed, RecipientsAllowed, WinsCas;
    EndLeaves(s, step.o, o);
    match step
    case CheckUpload(p) =>
      var UploadSent(cred, envelope, own) := s.ops[p].op;
      AdvanceLeaves(s, p, UploadChecked(cred, envelope, own), o);
    case CheckGrant(p) =>
      var GrantSent(target, version, wrapped, own) := s.ops[p].op;
      AdvanceLeaves(s, p, GrantChecked(target, version, wrapped, own), o);
    case CheckRotate(p) => AdvanceLeaves(s, p, RotatePrechecked(s.ops[p].op.rotation), o);
    case CheckCoverage(p) => AdvanceLeaves(s, p, RotateCovered(s.ops[p].op.rotation), o);
    case CheckBootstrap(p) => AdvanceLeaves(s, p, BootChecked(s.ops[p].op.boot), o);
  }

  lemma UnlockingLeaves(s: State, step: Step, o: OpId)
    requires step.Crash? || step.Begin? || step.FetchWrap? || step.FetchElsewhere? || step.StoreCache?
    requires Enabled(s, step) && step.o != o
    ensures Left(s, Next(s, step), o)
  {
    hide UnwrapVaultKey;
    match step
    case Crash(_) =>
    case Begin(_, _, _, _, _) =>
    case FetchWrap(p, keyId) => var _ := FetchedKey(s, p, keyId);
    case FetchElsewhere(_, _, _) =>
    case StoreCache(_, _) =>
  }

  lemma RewrapLeaves(s: State, p: OpId, o: OpId)
    requires Enabled(s, Rewrap(p)) && p != o
    ensures Left(s, RewrapStep(s, p), o)
  {
    hide AllUnwrap, Rewrapped;
  }

  lemma SealLeaves(s: State, p: OpId, id: string, o: OpId)
    requires Enabled(s, Seal(p, id)) && p != o
    ensures Left(s, SealStep(s, p, id), o)
  {
    hide SealForUpload;
  }

  lemma ListLeaves(s: State, p: OpId, listed: map<CredRef, ListedDek>, o: OpId)
    requires p in s.ops && s.ops[p].op.Ready? && s.ops[p].op.task.Rotate? && p != o
    ensures Left(s, ListStep(s, p, listed), o)
  {
  }

  lemma PreparingLeaves(s: State, step: Step, o: OpId)
    requires step.Seal? || step.WrapForTarget? || step.ListDeks? || step.ListElsewhere? || step.Rewrap?
    requires Enabled(s, step) && step.o != o
    ensures Left(s, Next(s, step), o)
  {
    hide WrapVaultKey, SealStep, ListStep, RewrapStep, Listing;
    match step
    case Seal(p, id) => SealLeaves(s, p, id, o);
    case WrapForTarget(_) =>
    case ListDeks(p) => ListLeaves(s, p, Listing(s), o);
    case ListElsewhere(p) => ListLeaves(s, p, map[], o);
    case Rewrap(p) => RewrapLeaves(s, p, o);
  }

  lemma CommitLeaves(s: State, p: OpId, o: OpId)
    requires Enabled(s, CommitRotate(p)) && p != o
    ensures Left(s, CommitRotateStep(s, p), o)
  {
    hide WrapRows, RewrittenRow, WinsCas;
  }

  lemma RecoveryLeaves(s: State, p: OpId, keyId: KeyId, o: OpId)
    requires Enabled(s, RegisterRecovery(p, keyId)) && p != o
    ensures Left(s, RegisterRecoveryStep(s, p, keyId), o)
  {
    hide WrapVaultKey;
  }

  lemma WritingLeaves(s: State, step: Step, o: OpId)
    requires OfCommand(step) && !Talks(step) && !step.StoreCache?
    requires Enabled(s, step) && step.o != o
    ensures Left(s, Next(s, step), o)
  {
    hide CommitRotateStep, CommitBootstrapStep, RegisterRecoveryStep;
    match step
    case InsertUpload(_) =>
    case InsertGrant(_) =>
    case CommitRotate(p) => CommitLeaves(s, p, o);
    case ForgetCache(_) =>
    case RegisterRecovery(p, keyId) => RecoveryLeaves(s, p, keyId, o);
    case CommitBootstrap(p) => BootstrapFrame(s, p);
  }

  /** A step of another command leaves this one alone. */
  lemma OtherStepsLeave(s: State, step: Step, o: OpId)
    requires Enabled(s, step) && !StepOf(step, o)
    ensures Left(s, Next(s, step), o)
  {
    hide Left, Next, Enabled;
    if !OfCommand(step) {
      TablesLeave(s, step, o);
    } else if Checks(step) {
      ChecksLeave(s, step, o);
    } else if step.Crash? || step.Begin? || step.FetchWrap? || step.FetchElsewhere? || step.StoreCache? {
      UnlockingLeaves(s, step, o);
    } else if step.BeginBootstrap? {
      BootBeginLeaves(s, step, o);
    } else if Talks(step) {
      PreparingLeaves(s, step, o);
    } else {
      WritingLeaves(s, step, o);
    }
  }

  lemma BootBeginLeaves(s: State, step: Step, o: OpId)
    requires Enabled(s, step) && step.BeginBootstrap? && step.o != o
    ensures Left(s, Next(s, step), o)
  {
  }

  lemma OtherStepStaysBehind(s: State, step: Step, t: State, o: OpId)
    requires Enabled(s, step) && !StepOf(step, o) && t == Next(s, step) && BehindOrGone(s, o)
    requires |s.history| <= |t.history|
    ensures BehindOrGone(t, o)
  {
    hide Next;
    OtherStepsLeave(s, step, o);
  }

  // ---------------------------------------------------------------- whole runs

  /** Until its id is given to a new command, no step of command `o` in the run changes the server's tables. */
  ghost predicate WritesNothing(s: State, steps: seq<Step>, o: OpId)
    requires CanRun(s, steps)
    decreases |steps|
  {
    steps == [] || (StepOf(steps[0], o) && Starts(steps[0])) || (
      && (StepOf(steps[0], o) ==> SameTables(s, Next(s, steps[0])))
      && WritesNothing(Next(s, steps[0]), steps[1..], o))
  }

  lemma StepStaysBehind(s: State, step: Step, o: OpId)
    requires Inv(s) && Enabled(s, step) && BehindOrGone(s, o) && !(StepOf(step, o) && Starts(step))
    ensures Inv(Next(s, step)) && BehindOrGone(Next(s, step), o)
    ensures StepOf(step, o) ==> SameTables(s, Next(s, step))
  {
    StepKeeps(s, step);
    if StepOf(step, o) {
      assert o in s.ops;
      hide Inv, Next, Grows;
      OwnStepWritesNothing(s, step, o);
    } else {
      assert |s.history| <= |Next(s, step).history|;
      hide Inv, Next, Grows;
      OtherStepStaysBehind(s, step, Next(s, step), o);
    }
  }

  /**
   * A grant, an upload or a rotation that holds a vault version the vault has left when it
   * comes to its first version check, or before, never writes a table again, whatever else
   * runs meanwhile.
   */
  lemma {:induction false} LeftBehindForGood(s: State, steps: seq<Step>, o: OpId)
    requires Inv(s) && CanRun(s, steps) && BehindOrGone(s, o)
    ensures WritesNothing(s, steps, o)
    decreases |steps|
  {
    hide Inv, Next, SameTables, BehindOrGone, StepOf, Starts;
    if steps != [] && !(StepOf(steps[0], o) && Starts(steps[0])) {
      StepStaysBehind(s, steps[0], o);
      LeftBehindForGood(Next(s, steps[0]), steps[1..], o);
    }
  }

  /**
   * So a rotation that commits puts an end to the writes of every other command that is
   * not past its first version check, unless that command holds a version still to come.
   */
  lemma RotationOutdates(s: State, p: OpId, steps: seq<Step>, o: OpId)
    requires Enabled(s, CommitRotate(p)) && WinsCas(s, s.ops[p].op.rotation)
    requires o in s.ops && HeldVersion(s.ops[o].op).Some? && HeldVersion(s.ops[o].op).value <= |s.history|
    requires CanRun(CommitRotateStep(s, p), steps)
    requires Inv(s)
    ensures WritesNothing(CommitRotateStep(s, p), steps, o)
  {
    hide Inv, WinsCas, CommitRotateStep, HeldVersion, BehindOrGone, WritesNothing, CanRun, Grows;
    OutdatedByWin(s, p, CommitRotateStep(s, p), o);
    CommitKeeps(s, p);
    LeftBehindForGood(CommitRotateStep(s, p), steps, o);
  }

  lemma OutdatedByWin(s: State, p: OpId, t: State, o: OpId)
    requires Enabled(s, CommitRotate(p)) && WinsCas(s, s.ops[p].op.rotation) && t == CommitRotateStep(s, p)
    requires o in s.ops && HeldVersion(s.ops[o].op).Some? && HeldVersion(s.ops[o].op).value <= |s.history|
    ensures BehindOrGone(t, o)
  {
    hide WrapRows, RewrittenRow;
  }
}
