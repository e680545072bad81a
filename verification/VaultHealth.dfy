/** Which stored credentials the current vault key opens, over every run. */
module VaultHealth {
  import opened Wrappers
  import opened Crypto
  import opened CredentialCipher
  import opened VaultModel
  import opened VaultFrames
  import opened VaultInvariant
  import opened VaultPreserved

  /** The row is at the current version, wrapped under the current key and bound to this organization. */
  predicate Healthy(s: State, r: CredRef) {
    && r in s.creds && s.creds[r].vaultVersion == |s.history|
    && TrueKey(s, s.creds[r].wrappedDek.key, |s.history|) && Bound(s, s.creds[r])
  }

  predicate AllHealthy(s: State) {
    forall r | r in s.creds :: Healthy(s, r)
  }

  /** What a device that unlocked `u` gets when it opens a stored row. */
  function OpenStored(s: State, u: Unlocked, r: CredRef, server: Record): Result<Record, OpenError>
    requires r in s.creds
  {
    OpenEnvelope(Session(s.orgId, u.vaultKey, u.vaultVersion), r.credentialType, r.id, s.creds[r], server)
  }

  /**
   * A session, with this organization's key or another, opens exactly the rows wrapped
   * under its key and bound to its organization, and gives back what was sealed.
   */
  lemma OpensOwnRows(s: State, session: Session, r: CredRef, server: Record)
    requires Inv(s) && r in s.creds
    ensures OpenEnvelope(session, r.credentialType, r.id, s.creds[r], server)
         == if s.creds[r].wrappedDek.key == session.vaultKey && s.creds[r].wrappedDek.binding.orgId == session.orgId
            then Contents(s.creds[r], server) else Err(UnwrapFailed)
  {
    assert RowOk(s, r, s.creds[r]);
    OpenByKey(session, s.deks[r].orgId, r.credentialType, r.id, s.creds[r], server);
  }

  /** Among stored rows the healthy ones are those under the current key and bound to this organization. */
  lemma HealthyByKey(s: State, u: Unlocked, r: CredRef)
    requires Inv(s) && TrueKey(s, u.vaultKey, |s.history|) && r in s.creds
    ensures Healthy(s, r) <==> s.creds[r].wrappedDek.key == u.vaultKey && Bound(s, s.creds[r])
  {
    assert RowOk(s, r, s.creds[r]);
    assert s.history[|s.history| - 1] == u.vaultKey;
  }

  /** The current key opens a row exactly when the row is healthy. */
  lemma CurrentKeyOpens(s: State, u: Unlocked, r: CredRef, server: Record)
    requires Inv(s) && TrueKey(s, u.vaultKey, |s.history|) && r in s.creds
    ensures OpenStored(s, u, r, server) == if Healthy(s, r) then Contents(s.creds[r], server) else Err(UnwrapFailed)
  {
    hide Inv, Healthy, OpenEnvelope, Contents;
    OpensOwnRows(s, Session(s.orgId, u.vaultKey, u.vaultVersion), r, server);
    HealthyByKey(s, u, r);
  }

  // ---------------------------------------------------------------- one step

  /**
   * What a step makes of a row, given whether the current key opened it before. An
   * insert opens if its command worked with a key of this organization, bound the row to
   * it, and the version is still current; a winning rotation opens exactly the rows bound
   * to this organization that it covers at the version it leaves; the other steps leave
   * things as they are.
   */
  predicate OpenAfter(s: State, step: Step, r: CredRef, open: bool)
    requires Enabled(s, step)
  {
    match step
    case InsertUpload(o) =>
      if s.ops[o].op.cred == r
      then OpensAtInsert(s, s.ops[o].op.envelope, s.ops[o].op.own)
      else open
    case CommitRotate(o) =>
      if WinsCas(s, s.ops[o].op.rotation)
      then CoversAtVersion(s, s.ops[o].op.rotation, r) && Bound(s, s.creds[r])
      else open
    case DeleteCredential(cred) => cred != r && open
    case _ => open
  }

  /** The envelope is at the current version, under a key of this organization and bound to it. */
  predicate OpensAtInsert(s: State, envelope: Envelope, own: bool) {
    own && envelope.vaultVersion == |s.history| && Bound(s, envelope)
  }

  /** The rotation carries the row and leaves the version the row is at. */
  predicate CoversAtVersion(s: State, rotation: Rotation, r: CredRef) {
    r in s.creds && r in rotation.deks && s.creds[r].vaultVersion == rotation.fromVersion
  }

  predicate WritesCreds(step: Step) {
    step.InsertUpload? || step.CommitRotate? || step.CommitBootstrap? || step.DeleteCredential?
  }

  lemma OtherStepsKeepRows(s: State, step: Step)
    requires Enabled(s, step) && !WritesCreds(step)
    ensures Next(s, step).creds == s.creds && Next(s, step).history == s.history
  {
    hide CommitRotateStep, CommitBootstrapStep, RewrapStep, SealStep, FetchedKey, WrapVaultKey;
    if Talks(step) {
      TalkKeepsTables(s, step);
    } else {
      match step
      case RegisterKey(_, _) =>
      case DropDeviceWraps(_, _) =>
      case ExpireCache(_) =>
      case CacheElsewhere(_, _, _) =>
      case StoreCache(_, _) =>
      case InsertGrant(_) =>
      case ForgetCache(_) =>
      case RegisterRecovery(_, _) =>
    }
  }

  /** A settled key does not become the key of a later version. */
  lemma NotTheNewKey(s: State, t: State, r: CredRef)
    requires CredsOk(s) && KeysGrow(s, t) && r in s.creds && |t.history| > |s.history|
    ensures !TrueKey(t, s.creds[r].wrappedDek.key, |t.history|)
  {
    assert RowOk(s, r, s.creds[r]);
    SettledForGood(s, t, s.creds[r].wrappedDek.key, |t.history|);
  }

  /** The key of a first version is new to whatever was stored before it. */
  lemma FirstKeyIsNew(s: State, o: OpId, t: State, r: CredRef)
    requires Enabled(s, CommitBootstrap(o)) && t == CommitBootstrapStep(s, o) && s.vault.None? && r in s.creds
    requires Inv(s)
    ensures t.creds == s.creds && |t.history| == 1 && s.creds[r].wrappedDek.key != t.history[0]
  {
    assert s.history == [] && CredsOk(s);
    hide Inv, Grows, CommitBootstrapStep, CredsOk;
    BootstrapFrame(s, o);
    CommitBootstrapKeeps(s, o);
    GrowsKeys(s, t);
    hide KeysGrow;
    NotTheNewKey(s, t, r);
  }

  lemma SameRowsHealth(s: State, t: State, r: CredRef)
    requires t.creds == s.creds && t.history == s.history && t.orgId == s.orgId
    ensures Healthy(t, r) <==> Healthy(s, r)
  {
  }

  lemma NewKeyHealth(s: State, t: State, r: CredRef)
    requires s.history == [] && t.creds == s.creds && |t.history| == 1
    requires r in s.creds ==> s.creds[r].wrappedDek.key != t.history[0]
    ensures Healthy(t, r) <==> Healthy(s, r)
  {
  }

  lemma BootstrapHealth(s: State, o: OpId, r: CredRef)
    requires Inv(s) && Enabled(s, CommitBootstrap(o))
    ensures Healthy(CommitBootstrapStep(s, o), r) <==> Healthy(s, r)
  {
    assert s.vault.None? ==> s.history == [];
    hide Inv, CommitBootstrapStep, Healthy;
    var t := CommitBootstrapStep(s, o);
    BootstrapFrame(s, o);
    if s.vault.Some? {
      SameRowsHealth(s, t, r);
    } else {
      if r in s.creds {
        FirstKeyIsNew(s, o, t, r);
      }
      NewKeyHealth(s, t, r);
    }
  }

  lemma DeleteHealth(s: State, cred: CredRef, r: CredRef)
    requires Enabled(s, DeleteCredential(cred))
    ensures Healthy(Next(s, DeleteCredential(cred)), r) <==> cred != r && Healthy(s, r)
  {
  }

  lemma OtherStepsKeepHealth(s: State, step: Step, r: CredRef)
    requires Inv(s) && Enabled(s, step) && !step.InsertUpload? && !step.CommitRotate?
    ensures Healthy(Next(s, step), r) <==> OpenAfter(s, step, r, Healthy(s, r))
  {
    hide Inv, CommitBootstrapStep, Healthy, KeysGrow, RowAdvances;
    if step.CommitBootstrap? {
      BootstrapHealth(s, step.o, r);
    } else if step.DeleteCredential? {
      DeleteHealth(s, step.cred, r);
    } else {
      hide Next;
      OtherStepsKeepRows(s, step);
      StepKeeps(s, step);
      SameRowsHealth(s, Next(s, step), r);
    }
  }

  lemma WonRowHealth(s: State, t: State, o: OpId, rotation: Rotation, r: CredRef)
    requires CredsOk(s) && KeysGrow(s, t) && BatchFrame(s, t, o, rotation) && BatchWon(s, t, rotation)
    requires forall d | d in rotation.deks :: RewrappedOk(s, d, rotation)
    ensures Healthy(t, r) <==> CoversAtVersion(s, rotation, r) && Bound(s, s.creds[r])
  {
    hide KeysGrow, Settled;
    if r in s.creds {
      NotTheNewKey(s, t, r);
      assert t.creds[r] == RewrittenRow(s.creds[r], r, rotation) && RowOk(s, r, s.creds[r]);
      if r in rotation.deks {
        assert RewrappedOk(s, r, rotation);
      }
    }
  }

  /** A losing batch opens nothing, and cannot touch a healthy row, whose version is past the one it guards on. */
  lemma LostRowHealth(s: State, t: State, o: OpId, rotation: Rotation, r: CredRef)
    requires BatchFrame(s, t, o, rotation) && BatchLost(s, t, rotation) && Discarded(t, rotation.newKey)
    requires forall d | d in rotation.deks :: RewrappedOk(s, d, rotation)
    ensures Healthy(t, r) <==> Healthy(s, r)
  {
    if r in s.creds {
      assert t.creds[r] == RewrittenRow(s.creds[r], r, rotation);
      if r in rotation.deks {
        assert RewrappedOk(s, r, rotation);
      }
    }
  }

  lemma CommitHealth(s: State, o: OpId, r: CredRef)
    requires Inv(s) && Enabled(s, CommitRotate(o))
    ensures Healthy(CommitRotateStep(s, o), r) <==> OpenAfter(s, CommitRotate(o), r, Healthy(s, r))
  {
    var rotation := s.ops[o].op.rotation;
    var t := CommitRotateStep(s, o);
    CoveredRotation(s, o);
    BatchShape(s, o);
    hide WrapsOk, RecoveryOk, CachesOk, UploadsOk, OpsOk, HistoryOk, PendingOk, CredsOk, Grows, CommitRotateStep,
      BatchFrame, BatchWon, BatchLost, Healthy, WinsCas;
    if WinsCas(s, rotation) {
      BatchGrows(s, t, o, rotation);
      GrowsKeys(s, t);
      WonRowHealth(s, t, o, rotation, r);
    } else {
      BatchSettlesKey(s, t, o, rotation);
      LostRowHealth(s, t, o, rotation, r);
    }
  }

  lemma InsertHealth(s: State, o: OpId, r: CredRef)
    requires OpsOk(s) && Enabled(s, InsertUpload(o))
    ensures Healthy(Next(s, InsertUpload(o)), r) <==> OpenAfter(s, InsertUpload(o), r, Healthy(s, r))
  {
    assert OpOk(s, s.ops[o].op);
  }

  /** Every step does to every row exactly what `OpenAfter` says. */
  lemma StepHealth(s: State, step: Step, r: CredRef)
    requires Inv(s) && Enabled(s, step)
    ensures Healthy(Next(s, step), r) <==> OpenAfter(s, step, r, Healthy(s, r))
  {
    hide Healthy, OpenAfter, CommitRotateStep;
    if step.InsertUpload? {
      InsertHealth(s, step.o, r);
    } else if step.CommitRotate? {
      CommitHealth(s, step.o, r);
    } else {
      OtherStepsKeepHealth(s, step, r);
    }
  }

  // ---------------------------------------------------------------- whole runs

  /** What a run makes of a row: the last of its writes decides. */
  ghost predicate RunOpens(s: State, steps: seq<Step>, r: CredRef, open: bool)
    requires CanRun(s, steps)
    decreases |steps|
  {
    if steps == [] then open else RunOpens(Next(s, steps[0]), steps[1..], r, OpenAfter(s, steps[0], r, open))
  }

  /** Over every run, the current key opens a row at the end exactly as the run's writes of it say. */
  lemma {:induction false} RunHealth(s: State, steps: seq<Step>, r: CredRef)
    requires Inv(s) && CanRun(s, steps)
    ensures Healthy(After(s, steps), r) <==> RunOpens(s, steps, r, Healthy(s, r))
    decreases |steps|
  {
    hide Inv, Healthy, OpenAfter, Next;
    if steps != [] {
      StepHealth(s, steps[0], r);
      StepKeeps(s, steps[0]);
      RunHealth(Next(s, steps[0]), steps[1..], r);
    }
  }

  /**
   * In every reachable state, whoever holds the true current key opens a stored
   * credential to exactly what was sealed if the last write of its row was an insert at
   * the current version, under this organization's key and bound to it, or a winning
   * rotation that covered it at its version, bound so; otherwise the data key does not
   * unwrap.
   */
  lemma StoredCredentialOpens(orgId: string, steps: seq<Step>, u: Unlocked, r: CredRef, server: Record)
    requires CanRun(Init(orgId), steps)
    requires TrueKey(After(Init(orgId), steps), u.vaultKey, |After(Init(orgId), steps).history|)
    requires r in After(Init(orgId), steps).creds
    ensures
      var s := After(Init(orgId), steps);
      OpenStored(s, u, r, server)
        == if RunOpens(Init(orgId), steps, r, false) then Contents(s.creds[r], server) else Err(UnwrapFailed)
  {
    hide Inv, OpenStored, Contents, RunOpens, CanRun, After, TrueKey;
    InitOk(orgId);
    RunKeeps(Init(orgId), steps);
    RunHealth(Init(orgId), steps, r);
    CurrentKeyOpens(After(Init(orgId), steps), u, r, server);
  }

  // ---------------------------------------------------------------- rotations with this organization's keys

  /** The rotation wins although its command worked with a key that is not this organization's key of its version. */
  predicate StrayRotation(s: State, step: Step)
    requires Enabled(s, step)
  {
    step.CommitRotate? && WinsCas(s, s.ops[step.o].op.rotation) && !s.ops[step.o].op.rotation.vault.own
  }

  ghost predicate NoStrayRotation(s: State, steps: seq<Step>)
    requires CanRun(s, steps)
    decreases |steps|
  {
    steps == [] || (!StrayRotation(s, steps[0]) && NoStrayRotation(Next(s, steps[0]), steps[1..]))
  }

  /**
   * What leaves a row unopenable: an insert under another key, bound to another organization
   * or at an old version, and a rotation that misses it.
   */
  predicate Strands(s: State, step: Step, r: CredRef)
    requires Enabled(s, step)
  {
    match step
    case InsertUpload(o) => s.ops[o].op.cred == r && !OpensAtInsert(s, s.ops[o].op.envelope, s.ops[o].op.own)
    case CommitRotate(o) => r in s.creds && WinsCas(s, s.ops[o].op.rotation) && r !in s.ops[o].op.rotation.deks
    case _ => false
  }

  ghost predicate EverStranded(s: State, steps: seq<Step>, r: CredRef)
    requires CanRun(s, steps)
    decreases |steps|
  {
    steps != [] && (Strands(s, steps[0], r) || EverStranded(Next(s, steps[0]), steps[1..], r))
  }

  /**
   * Of the rows bound here a winning rotation with this organization's key covers, at its
   * version, those that opened anyway.
   */
  lemma OwnRotationCovers(s: State, o: OpId, r: CredRef)
    requires Inv(s) && Enabled(s, CommitRotate(o)) && WinsCas(s, s.ops[o].op.rotation) && s.ops[o].op.rotation.vault.own
    requires r in s.creds && r in s.ops[o].op.rotation.deks
    ensures CoversAtVersion(s, s.ops[o].op.rotation, r) && Bound(s, s.creds[r]) <==> Healthy(s, r)
  {
    var rotation := s.ops[o].op.rotation;
    CoveredRotation(s, o);
    assert RewrappedOk(s, r, rotation) && UnlockedOk(s, rotation.vault);
  }

  /**
   * Without a stray rotation a step leaves a row openable exactly when it was, or is new,
   * and the step does not strand it.
   */
  lemma OwnStepHealth(s: State, step: Step, r: CredRef)
    requires Inv(s) && Enabled(s, step) && !StrayRotation(s, step) && r in Next(s, step).creds
    ensures Healthy(Next(s, step), r) <==> (r in s.creds ==> Healthy(s, r)) && !Strands(s, step, r)
  {
    hide Inv, Healthy, Next, OpenAfter, Strands, StrayRotation;
    StepHealth(s, step, r);
    StepKeepsOrAdds(s, step, r);
    if step.InsertUpload? {
      OwnInsertOpens(s, step.o, r);
    } else if step.CommitRotate? {
      OwnCommitOpens(s, step.o, r);
    } else {
      OthersOpen(s, step, r);
    }
  }

  lemma StepKeepsOrAdds(s: State, step: Step, r: CredRef)
    requires Enabled(s, step) && r in Next(s, step).creds
    ensures r in s.creds || (step.InsertUpload? && s.ops[step.o].op.cred == r)
    ensures step.DeleteCredential? ==> step.cred != r
  {
    hide CommitRotateStep, CommitBootstrapStep;
    if step.CommitRotate? {
      CommitKeepsRows(s, step.o);
    } else if step.CommitBootstrap? {
      BootstrapFrame(s, step.o);
    } else if !step.InsertUpload? && !step.DeleteCredential? {
      OtherStepsKeepRows(s, step);
    }
  }

  lemma CommitKeepsRows(s: State, o: OpId)
    requires Enabled(s, CommitRotate(o))
    ensures CommitRotateStep(s, o).creds.Keys == s.creds.Keys
  {
  }

  lemma OwnInsertOpens(s: State, o: OpId, r: CredRef)
    requires Enabled(s, InsertUpload(o)) && (r in s.creds || s.ops[o].op.cred == r)
    requires Inv(s)
    ensures OpenAfter(s, InsertUpload(o), r, Healthy(s, r)) <==>
              (r in s.creds ==> Healthy(s, r)) && !Strands(s, InsertUpload(o), r)
  {
    InsertsNew(s, o);
    assert r in s.creds ==> r in s.landed;
    hide Inv, Healthy;
  }

  lemma OwnCommitOpens(s: State, o: OpId, r: CredRef)
    requires Enabled(s, CommitRotate(o)) && !StrayRotation(s, CommitRotate(o)) && r in s.creds
    requires Inv(s)
    ensures OpenAfter(s, CommitRotate(o), r, Healthy(s, r)) <==> Healthy(s, r) && !Strands(s, CommitRotate(o), r)
  {
    hide Inv, Healthy;
    if WinsCas(s, s.ops[o].op.rotation) && r in s.ops[o].op.rotation.deks {
      OwnRotationCovers(s, o, r);
    }
  }

  lemma OthersOpen(s: State, step: Step, r: CredRef)
    requires Enabled(s, step) && !step.InsertUpload? && !step.CommitRotate?
    requires step.DeleteCredential? ==> step.cred != r
    ensures OpenAfter(s, step, r, Healthy(s, r)) == Healthy(s, r) && !Strands(s, step, r)
  {
    hide Healthy;
  }

  /** Only a stray rotation ever opens a stored row that did not open. */
  lemma HealedByStrayRotation(s: State, step: Step, r: CredRef)
    requires Enabled(s, step) && r in s.landed && !Healthy(s, r) && Healthy(Next(s, step), r)
    requires Inv(s)
    ensures StrayRotation(s, step) && CoversAtVersion(s, s.ops[step.o].op.rotation, r)
  {
    if step.InsertUpload? {
      InsertsNew(s, step.o);
    } else if step.CommitRotate? {
      RotationCoversHealthy(s, step.o, r);
    }
    StepHealth(s, step, r);
  }

  lemma InsertsNew(s: State, o: OpId)
    requires UploadsOk(s) && Enabled(s, InsertUpload(o))
    ensures s.ops[o].op.cred !in s.landed
  {
    assert UploadOf(s.ops[o].op) == Some(s.ops[o].op.cred);
  }

  lemma RotationCoversHealthy(s: State, o: OpId, r: CredRef)
    requires Inv(s) && Enabled(s, CommitRotate(o)) && !Healthy(s, r)
    ensures
      var rotation := s.ops[o].op.rotation;
      WinsCas(s, rotation) && rotation.vault.own && CoversAtVersion(s, rotation, r) ==> !Bound(s, s.creds[r])
  {
    var rotation := s.ops[o].op.rotation;
    if WinsCas(s, rotation) && rotation.vault.own && r in s.creds && r in rotation.deks {
      OwnRotationCovers(s, o, r);
    }
  }

  /** Without stray rotations a stored credential the current key does not open is never opened by a later one. */
  lemma {:induction false} NeverHealedLater(s: State, steps: seq<Step>, r: CredRef)
    requires Inv(s) && CanRun(s, steps) && NoStrayRotation(s, steps) && r in s.landed && !Healthy(s, r)
    ensures !Healthy(After(s, steps), r)
    decreases |steps|
  {
    hide Inv, Healthy, Next, StrayRotation;
    if steps != [] {
      if Healthy(Next(s, steps[0]), r) {
        HealedByStrayRotation(s, steps[0], r);
      }
      StepKeeps(s, steps[0]);
      assert r in Next(s, steps[0]).landed by { LandedGrows(s, Next(s, steps[0])); }
      NeverHealedLater(Next(s, steps[0]), steps[1..], r);
    }
  }

  lemma LandedGrows(s: State, t: State)
    requires Grows(s, t)
    ensures s.landed <= t.landed
    ensures forall r | r in s.landed && r in t.creds :: r in s.creds
  {
  }

  lemma StrandedIsStored(s: State, step: Step, r: CredRef)
    requires Enabled(s, step) && Strands(s, step, r)
    ensures r in Next(s, step).creds
  {
  }

  /**
   * Over any run whose rotations work with this organization's keys, a stored row ends
   * openable if and only if it was openable or new, its insert, if any, came from a
   * command working with this organization's key for this organization, and no overtaken
   * write hit it.
   */
  lemma {:induction false} OwnRunHealth(s: State, steps: seq<Step>, r: CredRef)
    requires Inv(s) && CanRun(s, steps) && NoStrayRotation(s, steps) && r in After(s, steps).creds
    ensures Healthy(After(s, steps), r) <==> (r in s.creds ==> Healthy(s, r)) && !EverStranded(s, steps, r)
    decreases |steps|
  {
    if steps != [] {
      var t := Next(s, steps[0]);
      OwnRunStep(s, steps[0], t, r);
      if r in t.creds && !Healthy(t, r) {
        NeverHealedLater(t, steps[1..], r);
      } else {
        OwnRunHealth(t, steps[1..], r);
      }
      RowsComeBackNever(s, t, steps[1..], r);
    } else {
      assert r in s.creds;
    }
  }

  /** What `OwnRunHealth` needs of one step. */
  lemma OwnRunStep(s: State, step: Step, t: State, r: CredRef)
    requires Inv(s) && Enabled(s, step) && !StrayRotation(s, step) && t == Next(s, step)
    ensures Inv(t) && Grows(s, t) && t.creds.Keys <= t.landed
    ensures r in t.creds ==> (Healthy(t, r) <==> (r in s.creds ==> Healthy(s, r)) && !Strands(s, step, r))
    ensures r !in t.creds ==> !Strands(s, step, r)
  {
    hide Healthy, Strands, StrayRotation, Next;
    StepKeeps(s, step);
    if r in t.creds {
      OwnStepHealth(s, step, r);
    } else if Strands(s, step, r) {
      StrandedIsStored(s, step, r);
    }
  }

  /** A credential that is gone stays gone. */
  lemma RowsComeBackNever(s: State, t: State, steps: seq<Step>, r: CredRef)
    requires Inv(s) && Inv(t) && Grows(s, t) && CanRun(t, steps) && r in After(t, steps).creds
    ensures r in s.creds ==> r in t.creds
  {
    RunKeeps(t, steps);
    GrowsTransitive(s, t, After(t, steps));
    LandedGrows(t, After(t, steps));
  }

  // ---------------------------------------------------------------- what was there when the checks passed

  lemma CoveragePassed(s: State, o: OpId)
    requires Enabled(s, CheckCoverage(o)) && o in Next(s, CheckCoverage(o)).ops
    ensures
      var t := Next(s, CheckCoverage(o));
      && t.ops[o].op.RotateCovered? && t.ops[o].op.rotation.deks.Keys == s.creds.Keys == t.creds.Keys
      && t.landed == s.landed
  {
    var rotation := s.ops[o].op.rotation;
    Ended(s, o);
    assert s.creds.Keys == rotation.deks.Keys;
    Advanced(s, o, RotateCovered(rotation));
    hide Advance, End;
  }

  lemma Ended(s: State, o: OpId)
    ensures o !in End(s, o).ops
  {
  }

  lemma Advanced(s: State, o: OpId, op: Op)
    requires o in s.ops
    ensures
      var t := Advance(s, o, op);
      o in t.ops && t.ops[o].op == op && t.creds == s.creds && t.landed == s.landed && t.history == s.history
  {
  }

  lemma UploadPassed(s: State, o: OpId)
    requires HistoryOk(s) && OpsOk(s) && Enabled(s, CheckUpload(o)) && o in Next(s, CheckUpload(o)).ops
    ensures
      var t := Next(s, CheckUpload(o));
      && t.ops[o].op.UploadChecked? && t.history == s.history
      && (t.ops[o].op.own ==> t.ops[o].op.envelope.vaultVersion == |s.history|)
  {
    var UploadSent(cred, envelope, own) := s.ops[o].op;
    assert OpOk(s, s.ops[o].op);
    Ended(s, o);
    Advanced(s, o, UploadChecked(cred, envelope, own));
    hide Advance, End, Sealed, Settled;
  }

  /**
   * A rotation only strands what was stored after its coverage check: whatever was
   * stored when the check passed is covered, or is gone for good by the commit.
   */
  lemma StrandedByRotationIsLate(s: State, t: State, o: OpId, steps: seq<Step>, u: State, r: CredRef)
    requires Inv(s) && Enabled(s, CheckCoverage(o)) && t == Next(s, CheckCoverage(o))
    requires CanRun(t, steps) && u == After(t, steps)
    requires o in t.ops && o in u.ops && u.ops[o] == t.ops[o]
    requires Enabled(u, CommitRotate(o)) && Strands(u, CommitRotate(o), r)
    ensures r !in s.landed
  {
    hide Inv, Next, CanRun, After;
    StepKeeps(s, CheckCoverage(o));
    RunKeeps(t, steps);
    CoveragePassed(s, o);
  }

  /**
   * And an upload that worked with this organization's key for this organization is only
   * stranded by its own insert if a rotation committed since its version check.
   */
  lemma StrandedInsertWasOvertaken(s: State, t: State, o: OpId, steps: seq<Step>, u: State, r: CredRef)
    requires Inv(s) && Enabled(s, CheckUpload(o)) && t == Next(s, CheckUpload(o))
    requires CanRun(t, steps) && u == After(t, steps)
    requires o in t.ops && o in u.ops && u.ops[o] == t.ops[o]
    requires Enabled(u, InsertUpload(o)) && Strands(u, InsertUpload(o), r)
    ensures u.ops[o].op.own && Bound(u, u.ops[o].op.envelope) ==> |u.history| > |s.history|
  {
    UploadPassed(s, o);
    hide Inv, Next, CanRun, After, Bound;
    StepKeeps(s, CheckUpload(o));
    RunKeeps(t, steps);
  }

  /** A row stored throughout keeps its ciphertext, and opens at the end exactly as the run's writes say. */
  lemma KeptRowHealth(s: State, steps: seq<Step>, r: CredRef)
    requires Inv(s) && CanRun(s, steps) && r in s.creds && r in After(s, steps).creds
    ensures Healthy(After(s, steps), r) <==> RunOpens(s, steps, r, Healthy(s, r))
    ensures After(s, steps).creds[r].ciphertext == s.creds[r].ciphertext
  {
    RunKeeps(s, steps);
    assert RowAdvances(s.creds[r], After(s, steps).creds[r]);
    RunHealth(s, steps, r);
  }
}
