/** Which steps of the vault machine leave all tables and keychains alone. */
module VaultFrames {
  import opened Wrappers
  import opened Crypto
  import opened CredentialCipher
  import opened VaultModel

  ghost predicate TablesKept(s: State, t: State) {
    && t.vault == s.vault && t.wraps == s.wraps && t.keys == s.keys && t.creds == s.creds
    && t.caches == s.caches && t.history == s.history
  }

  /** Steps that only start, advance or end a command, or draw a key. */
  predicate Talks(step: Step) {
    || step.DrawElsewhere? || step.Crash? || step.Begin? || step.FetchWrap? || step.FetchElsewhere? || step.Seal?
    || step.WrapForTarget? || step.ListDeks? || step.ListElsewhere? || step.Rewrap? || step.BeginBootstrap?
    || Checks(step)
  }

  /** The checks the server makes before it writes. */
  predicate Checks(step: Step) {
    step.CheckUpload? || step.CheckGrant? || step.CheckRotate? || step.CheckCoverage? || step.CheckBootstrap?
  }

  lemma AdvanceKeepsTables(s: State, o: OpId, op: Op)
    requires o in s.ops
    ensures TablesKept(s, Advance(s, o, op))
  {
  }

  lemma EndKeepsTables(s: State, o: OpId)
    ensures TablesKept(s, End(s, o))
  {
  }

  lemma ChecksKeepTables(s: State, step: Step)
    requires Enabled(s, step) && Checks(step)
    ensures TablesKept(s, Next(s, step))
  {
    hide TablesKept, Advance, End, UploadVersionCurrent, GrantAllowed, RecipientsAllowed, WinsCas;
    EndKeepsTables(s, step.o);
    match step
    case CheckUpload(o) =>
      var UploadSent(cred, envelope, own) := s.ops[o].op;
      AdvanceKeepsTables(s, o, UploadChecked(cred, envelope, own));
    case CheckGrant(o) =>
      var GrantSent(target, version, wrapped, own) := s.ops[o].op;
      AdvanceKeepsTables(s, o, GrantChecked(target, version, wrapped, own));
    case CheckRotate(o) => AdvanceKeepsTables(s, o, RotatePrechecked(s.ops[o].op.rotation));
    case CheckCoverage(o) => AdvanceKeepsTables(s, o, RotateCovered(s.ops[o].op.rotation));
    case CheckBootstrap(o) => AdvanceKeepsTables(s, o, BootChecked(s.ops[o].op.boot));
  }

  predicate Unlocks(step: Step) {
    step.DrawElsewhere? || step.Crash? || step.Begin? || step.FetchWrap? || step.FetchElsewhere?
  }

  lemma UnlockingKeepsTables(s: State, step: Step)
    requires Enabled(s, step) && Unlocks(step)
    ensures TablesKept(s, Next(s, step))
  {
    hide UnwrapVaultKey;
    match step
    case DrawElsewhere =>
    case Crash(_) =>
    case Begin(_, _, _, _, _) =>
    case FetchWrap(o, keyId) => var _ := FetchedKey(s, o, keyId);
    case FetchElsewhere(_, _, _) =>
  }

  lemma SealKeepsTables(s: State, o: OpId, id: string)
    requires Enabled(s, Seal(o, id))
    ensures TablesKept(s, SealStep(s, o, id))
  {
    hide SealForUpload;
  }

  lemma ListKeepsTables(s: State, o: OpId, listed: map<CredRef, ListedDek>)
    requires o in s.ops && s.ops[o].op.Ready? && s.ops[o].op.task.Rotate?
    ensures TablesKept(s, ListStep(s, o, listed))
  {
  }

  lemma RewrapKeepsTables(s: State, o: OpId)
    requires Enabled(s, Rewrap(o))
    ensures TablesKept(s, RewrapStep(s, o))
  {
    hide AllUnwrap, Rewrapped;
  }

  lemma PreparingKeepsTables(s: State, step: Step)
    requires Enabled(s, step) && Talks(step) && !Checks(step) && !Unlocks(step)
    ensures TablesKept(s, Next(s, step))
  {
    hide WrapVaultKey, Listing, ListStep, SealStep, RewrapStep;
    match step
    case Seal(o, id) => SealKeepsTables(s, o, id);
    case WrapForTarget(_) =>
    case ListDeks(o) => ListKeepsTables(s, o, Listing(s));
    case ListElsewhere(o) => ListKeepsTables(s, o, map[]);
    case Rewrap(o) => RewrapKeepsTables(s, o);
    case BeginBootstrap(_, _, _, _) =>
  }

  /** Commands that only talk, prepare or check change nothing anyone else reads. */
  lemma TalkKeepsTables(s: State, step: Step)
    requires Enabled(s, step) && Talks(step)
    ensures TablesKept(s, Next(s, step))
  {
    hide Next, TablesKept;
    if Checks(step) {
      ChecksKeepTables(s, step);
    } else if Unlocks(step) {
      UnlockingKeepsTables(s, step);
    } else {
      PreparingKeepsTables(s, step);
    }
  }

  /** What a bootstrap's batch does besides the wraps it inserts. */
  lemma BootstrapFrame(s: State, o: OpId)
    requires Enabled(s, CommitBootstrap(o))
    ensures
      var t := CommitBootstrapStep(s, o);
      && t.orgId == s.orgId && t.keys == s.keys && t.creds == s.creds && t.caches == s.caches && t.ops == s.ops - {o}
      && t.vault == (if s.vault.Some? then s.vault else Some(1))
      && t.history == (if s.vault.Some? then s.history else [s.ops[o].op.boot.vaultKey])
  {
    hide WrapRows;
  }
}
