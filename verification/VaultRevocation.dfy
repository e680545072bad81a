/** When a revoked key holds a wrap of the vault key. */
module VaultRevocation {
  import opened Wrappers
  import opened Crypto
  import opened VaultModel
  import opened VaultFrames
  import opened VaultInvariant
  import opened VaultPreserved
  import opened VaultTheorems

  predicate Revoked(s: State, keyId: KeyId) {
    keyId in s.keys && s.keys[keyId].revoked
  }

  /** The key is revoked and unlocks the vault all the same. */
  predicate RevokedUnlocks(s: State, keyId: KeyId) {
    Revoked(s, keyId) && UnlockAs(s, keyId).Some?
  }

  predicate Lists(wraps: seq<RecipientWrap>, keyId: KeyId) {
    exists w | w in wraps :: w.keyId == keyId
  }

  /**
   * What a step makes of a key, given whether it was revoked and unlocked before: a
   * winning rotation and a winning bootstrap decide by their lists alone, a grant that
   * lands on it counts too, and removing its device's wraps ends it.
   */
  predicate RevokedAfter(s: State, step: Step, keyId: KeyId, unlocks: bool)
    requires Enabled(s, step)
  {
    match step
    case DropDeviceWraps(keyIds, _) => unlocks && keyId !in keyIds
    case InsertGrant(o) =>
      unlocks || (Revoked(s, keyId) && s.ops[o].op.target == keyId && s.vault == Some(s.ops[o].op.version))
    case CommitRotate(o) =>
      if WinsCas(s, s.ops[o].op.rotation)
      then Revoked(s, keyId) && Lists(s.ops[o].op.rotation.wraps, keyId)
      else unlocks
    case CommitBootstrap(o) =>
      if s.vault.None? then Revoked(s, keyId) && Lists(s.ops[o].op.boot.wraps, keyId) else unlocks
    case _ => unlocks
  }

  /** A registered key unlocks the vault exactly when it has a wrap. */
  lemma UnlocksByWrap(s: State, keyId: KeyId)
    requires HistoryOk(s) && WrapsOk(s)
    ensures UnlockAs(s, keyId).Some? <==> (|s.history|, keyId) in s.wraps
  {
    if (|s.history|, keyId) in s.wraps {
      assert WrapOk(s, |s.history|, keyId, s.wraps[(|s.history|, keyId)]);
    }
  }

  predicate WritesWraps(step: Step) {
    step.DropDeviceWraps? || step.InsertGrant? || step.CommitRotate? || step.CommitBootstrap?
  }

  /** No wrap changes, no key is revoked, and what is registered is not. */
  ghost predicate SameWraps(s: State, t: State) {
    t.wraps == s.wraps && t.history == s.history && forall k :: Revoked(t, k) <==> Revoked(s, k)
  }

  lemma RegisterKeepsWraps(s: State, keyId: KeyId, row: KeyRow)
    requires Enabled(s, RegisterKey(keyId, row))
    ensures SameWraps(s, Next(s, RegisterKey(keyId, row)))
  {
  }

  lemma RegisterRecoveryKeepsWraps(s: State, o: OpId, keyId: KeyId)
    requires Enabled(s, RegisterRecovery(o, keyId))
    ensures SameWraps(s, RegisterRecoveryStep(s, o, keyId))
  {
    hide WrapVaultKey;
  }

  lemma PlainStepsKeepWraps(s: State, step: Step)
    requires Enabled(s, step) && !WritesWraps(step) && !step.RegisterKey? && !step.RegisterRecovery?
    ensures var t := Next(s, step); t.wraps == s.wraps && t.keys == s.keys && t.history == s.history
  {
    if Talks(step) {
      TalkKeepsTables(s, step);
    } else {
      match step
      case DeleteCredential(_) =>
      case ExpireCache(_) =>
      case CacheElsewhere(_, _, _) =>
      case StoreCache(_, _) =>
      case InsertUpload(_) =>
      case ForgetCache(_) =>
    }
  }

  lemma SameTables(s: State, t: State)
    requires t.wraps == s.wraps && t.keys == s.keys && t.history == s.history
    ensures SameWraps(s, t)
  {
  }

  lemma OtherStepsKeepWraps(s: State, step: Step)
    requires Enabled(s, step) && !WritesWraps(step)
    ensures SameWraps(s, Next(s, step))
  {
    hide Next, SameWraps;
    if step.RegisterKey? {
      RegisterKeepsWraps(s, step.keyId, step.row);
    } else if step.RegisterRecovery? {
      RecoveryStepKeepsWraps(s, step.o, step.keyId);
    } else {
      PlainStepsKeepWraps(s, step);
      SameTables(s, Next(s, step));
    }
  }

  lemma RecoveryStepKeepsWraps(s: State, o: OpId, keyId: KeyId)
    requires Enabled(s, RegisterRecovery(o, keyId))
    ensures SameWraps(s, Next(s, RegisterRecovery(o, keyId)))
  {
    hide SameWraps, RegisterRecoveryStep;
    RegisterRecoveryKeepsWraps(s, o, keyId);
  }

  lemma DropRevokes(s: State, keyIds: set<KeyId>, revoked: set<KeyId>, keyId: KeyId)
    requires Enabled(s, DropDeviceWraps(keyIds, revoked))
    ensures
      var t := Next(s, DropDeviceWraps(keyIds, revoked));
      && t.history == s.history
      && ((|t.history|, keyId) in t.wraps <==> (|s.history|, keyId) in s.wraps && keyId !in keyIds)
      && (keyId !in keyIds ==> (Revoked(t, keyId) <==> Revoked(s, keyId)))
  {
  }

  lemma GrantShape(s: State, o: OpId)
    requires Enabled(s, InsertGrant(o))
    ensures
      var t := InsertGrantStep(s, o);
      var GrantChecked(target, version, wrapped, own) := s.ops[o].op;
      && t.history == s.history && t.keys == s.keys
      && t.wraps == if s.vault == Some(version) && (version, target) !in s.wraps
                    then s.wraps[(version, target) := WrapRow(wrapped, own)] else s.wraps
  {
  }

  lemma GrantWraps(s: State, o: OpId, keyId: KeyId)
    requires Enabled(s, InsertGrant(o)) && s.vault == (if s.history == [] then None else Some(|s.history|))
    ensures
      var t := InsertGrantStep(s, o);
      && t.history == s.history && t.keys == s.keys
      && ((|t.history|, keyId) in t.wraps <==>
            || (|s.history|, keyId) in s.wraps
            || (s.ops[o].op.target == keyId && s.vault == Some(s.ops[o].op.version)))
  {
    GrantShape(s, o);
    hide InsertGrantStep;
  }

  lemma RotationWraps(s: State, o: OpId, keyId: KeyId)
    requires Inv(s) && Enabled(s, CommitRotate(o))
    ensures
      var t := CommitRotateStep(s, o);
      && t.keys == s.keys
      && ((|t.history|, keyId) in t.wraps <==>
            if WinsCas(s, s.ops[o].op.rotation) then Lists(s.ops[o].op.rotation.wraps, keyId)
            else (|s.history|, keyId) in s.wraps)
  {
    CoveredRotation(s, o);
    BatchShape(s, o);
    hide Inv, CommitRotateStep;
  }

  lemma ListsRows(wraps: seq<RecipientWrap>, keyId: KeyId)
    ensures (1, keyId) in WrapRows(1, wraps) <==> Lists(wraps, keyId)
  {
    RowsOfList(1, wraps);
    if (1, keyId) in WrapRows(1, wraps) {
      var w := RecipientWrap(keyId, WrapRows(1, wraps)[(1, keyId)].blob);
      assert w in wraps && w.keyId == keyId;
    }
  }

  lemma BootstrapWraps(s: State, o: OpId, keyId: KeyId)
    requires Inv(s) && Enabled(s, CommitBootstrap(o))
    ensures
      var t := CommitBootstrapStep(s, o);
      && t.keys == s.keys
      && ((|t.history|, keyId) in t.wraps <==>
            if s.vault.None? then Lists(s.ops[o].op.boot.wraps, keyId) else (|s.history|, keyId) in s.wraps)
  {
    assert s.vault.None? ==> s.wraps == map[];
    BootstrapFrame(s, o);
    ListsRows(s.ops[o].op.boot.wraps, keyId);
    hide Inv, WrapRows;
  }

  lemma InvUnlocksByWrap(s: State, keyId: KeyId)
    requires Inv(s)
    ensures UnlockAs(s, keyId).Some? <==> (|s.history|, keyId) in s.wraps
  {
    UnlocksByWrap(s, keyId);
  }

  /** That a key unlocks exactly when it has a wrap, before and after the step. */
  ghost predicate ByWraps(s: State, t: State, keyId: KeyId) {
    && (UnlockAs(s, keyId).Some? <==> (|s.history|, keyId) in s.wraps)
    && (UnlockAs(t, keyId).Some? <==> (|t.history|, keyId) in t.wraps)
  }

  lemma WritesWrapsRevoked(s: State, step: Step, keyId: KeyId)
    requires Inv(s) && Enabled(s, step) && WritesWraps(step) && ByWraps(s, Next(s, step), keyId)
    ensures RevokedUnlocks(Next(s, step), keyId) <==> RevokedAfter(s, step, keyId, RevokedUnlocks(s, keyId))
  {
    hide Inv, ByWraps, RevokedUnlocks, RevokedAfter, CommitRotateStep, CommitBootstrapStep, InsertGrantStep;
    match step
    case DropDeviceWraps(keyIds, revoked) => DropRevoked(s, step, keyId);
    case InsertGrant(o) => GrantRevoked(s, o, keyId);
    case CommitRotate(o) => RotationRevoked(s, o, keyId);
    case CommitBootstrap(o) => BootstrapRevoked(s, o, keyId);
  }

  lemma DropRevoked(s: State, step: Step, keyId: KeyId)
    requires step.DropDeviceWraps? && Enabled(s, step) && ByWraps(s, Next(s, step), keyId)
    ensures RevokedUnlocks(Next(s, step), keyId) <==> RevokedAfter(s, step, keyId, RevokedUnlocks(s, keyId))
  {
    hide UnlockAs, Next;
    DropRevokes(s, step.keyIds, step.revoked, keyId);
  }

  lemma GrantRevoked(s: State, o: OpId, keyId: KeyId)
    requires Inv(s) && Enabled(s, InsertGrant(o)) && ByWraps(s, InsertGrantStep(s, o), keyId)
    ensures RevokedUnlocks(InsertGrantStep(s, o), keyId)
       <==> RevokedAfter(s, InsertGrant(o), keyId, RevokedUnlocks(s, keyId))
  {
    GrantWraps(s, o, keyId);
    hide UnlockAs, InsertGrantStep, Inv;
  }

  lemma RotationRevoked(s: State, o: OpId, keyId: KeyId)
    requires Inv(s) && Enabled(s, CommitRotate(o)) && ByWraps(s, CommitRotateStep(s, o), keyId)
    ensures RevokedUnlocks(CommitRotateStep(s, o), keyId)
       <==> RevokedAfter(s, CommitRotate(o), keyId, RevokedUnlocks(s, keyId))
  {
    hide UnlockAs, CommitRotateStep, Inv, WinsCas, Lists;
    RotationWraps(s, o, keyId);
  }

  lemma BootstrapRevoked(s: State, o: OpId, keyId: KeyId)
    requires Inv(s) && Enabled(s, CommitBootstrap(o)) && ByWraps(s, CommitBootstrapStep(s, o), keyId)
    ensures RevokedUnlocks(CommitBootstrapStep(s, o), keyId)
       <==> RevokedAfter(s, CommitBootstrap(o), keyId, RevokedUnlocks(s, keyId))
  {
    hide UnlockAs, CommitBootstrapStep, Inv, Lists;
    BootstrapWraps(s, o, keyId);
  }

  /** Every step does to every revoked key exactly what `RevokedAfter` says. */
  lemma StepRevoked(s: State, step: Step, keyId: KeyId)
    requires Inv(s) && Enabled(s, step)
    ensures RevokedUnlocks(Next(s, step), keyId) <==> RevokedAfter(s, step, keyId, RevokedUnlocks(s, keyId))
  {
    hide Inv, UnlockAs, Next, SameWraps, RevokedUnlocks, RevokedAfter;
    StepKeeps(s, step);
    InvUnlocksByWrap(s, keyId);
    InvUnlocksByWrap(Next(s, step), keyId);
    if WritesWraps(step) {
      WritesWrapsRevoked(s, step, keyId);
    } else {
      OtherStepsKeepWraps(s, step);
      SameWrapsRevoked(s, step, Next(s, step), keyId);
    }
  }

  lemma SameWrapsRevoked(s: State, step: Step, t: State, keyId: KeyId)
    requires Enabled(s, step) && !WritesWraps(step) && SameWraps(s, t) && ByWraps(s, t, keyId)
    ensures RevokedUnlocks(t, keyId) <==> RevokedAfter(s, step, keyId, RevokedUnlocks(s, keyId))
  {
    hide UnlockAs, Enabled;
  }

  /** What a run makes of a revoked key: the last write of its wrap decides. */
  ghost predicate RunRevoked(s: State, steps: seq<Step>, keyId: KeyId, unlocks: bool)
    requires CanRun(s, steps)
    decreases |steps|
  {
    if steps == [] then unlocks
    else RunRevoked(Next(s, steps[0]), steps[1..], keyId, RevokedAfter(s, steps[0], keyId, unlocks))
  }

  /**
   * In every reachable state a revoked key unlocks the vault if and only if the last
   * write of its wrap since was a winning rotation or bootstrap that lists it, or a
   * grant that landed on it.
   */
  lemma RevokedKeyUnlocks(orgId: string, steps: seq<Step>, keyId: KeyId)
    requires CanRun(Init(orgId), steps)
    ensures RevokedUnlocks(After(Init(orgId), steps), keyId) <==> RunRevoked(Init(orgId), steps, keyId, false)
  {
    InitOk(orgId);
    RevokedOverRun(Init(orgId), steps, keyId);
  }

  lemma {:induction false} RevokedOverRun(s: State, steps: seq<Step>, keyId: KeyId)
    requires Inv(s) && CanRun(s, steps)
    ensures RevokedUnlocks(After(s, steps), keyId) <==> RunRevoked(s, steps, keyId, RevokedUnlocks(s, keyId))
    decreases |steps|
  {
    hide Inv, RevokedUnlocks, RevokedAfter, Next;
    if steps != [] {
      StepRevoked(s, steps[0], keyId);
      StepKeeps(s, steps[0]);
      RevokedOverRun(Next(s, steps[0]), steps[1..], keyId);
    }
  }

  /** The step is a server statement that revokes the key. */
  predicate Revokes(step: Step, keyId: KeyId) {
    step.DropDeviceWraps? && keyId in step.revoked
  }

  lemma RevokedByStep(s: State, step: Step, keyId: KeyId)
    requires Enabled(s, step) && keyId in s.keys
    ensures keyId in Next(s, step).keys
    ensures Revoked(Next(s, step), keyId) <==> Revoked(s, keyId) || Revokes(step, keyId)
  {
    hide InsertGrantStep, CommitRotateStep, CommitBootstrapStep, RegisterRecoveryStep;
    if !WritesWraps(step) && !step.RegisterKey? && !step.RegisterRecovery? {
      PlainStepsKeepWraps(s, step);
    } else if !step.DropDeviceWraps? {
      WritersKeepRevoked(s, step, keyId);
    }
  }

  lemma WritersKeepRevoked(s: State, step: Step, keyId: KeyId)
    requires Enabled(s, step) && keyId in s.keys && !step.DropDeviceWraps?
    requires WritesWraps(step) || step.RegisterKey? || step.RegisterRecovery?
    ensures keyId in Next(s, step).keys && Next(s, step).keys[keyId] == s.keys[keyId]
  {
    hide Next, Enabled;
    if step.RegisterKey? {
      RegisterKeepsKey(s, step.keyId, step.row, keyId);
    } else if step.RegisterRecovery? {
      RecoveryKeepsKey(s, step.o, step.keyId, keyId);
    } else {
      WrapsKeepKeys(s, step);
    }
  }

  lemma RegisterKeepsKey(s: State, id: KeyId, row: KeyRow, keyId: KeyId)
    requires Enabled(s, RegisterKey(id, row)) && keyId in s.keys
    ensures
      var t := Next(s, RegisterKey(id, row));
      keyId in t.keys && t.keys[keyId] == s.keys[keyId]
  {
  }

  lemma WrapsKeepKeys(s: State, step: Step)
    requires Enabled(s, step) && WritesWraps(step) && !step.DropDeviceWraps?
    ensures Next(s, step).keys == s.keys
  {
    hide InsertGrantStep, CommitRotateStep, CommitBootstrapStep;
    match step
    case InsertGrant(o) => GrantShape(s, o);
    case CommitRotate(o) => CommitKeepsKeys(s, o);
    case CommitBootstrap(o) => BootstrapFrame(s, o);
  }

  lemma RecoveryKeepsKey(s: State, o: OpId, id: KeyId, keyId: KeyId)
    requires Enabled(s, RegisterRecovery(o, id)) && keyId in s.keys
    ensures
      var t := Next(s, RegisterRecovery(o, id));
      keyId in t.keys && t.keys[keyId] == s.keys[keyId]
  {
    hide WrapVaultKey;
  }

  lemma CommitKeepsKeys(s: State, o: OpId)
    requires Enabled(s, CommitRotate(o))
    ensures CommitRotateStep(s, o).keys == s.keys
  {
    hide WrapRows, RewrittenRow, WinsCas;
  }

  lemma {:induction false} RevokedInRun(s: State, steps: seq<Step>, keyId: KeyId)
    requires CanRun(s, steps) && keyId in s.keys
    ensures Revoked(After(s, steps), keyId) <==>
              Revoked(s, keyId) || exists step | step in steps :: Revokes(step, keyId)
    decreases |steps|
  {
    hide Next, Revoked, Revokes;
    if steps != [] {
      RevokedByStep(s, steps[0], keyId);
      RevokedInRun(Next(s, steps[0]), steps[1..], keyId);
      assert forall step | step in steps :: step == steps[0] || step in steps[1..];
    }
  }

  /** A grant lands on a revoked key if and only if the key was revoked between the grant's check and its insert. */
  lemma RevokedGrantWasOvertaken(s: State, t: State, o: OpId, steps: seq<Step>, u: State)
    requires Enabled(s, CheckGrant(o)) && t == Next(s, CheckGrant(o)) && o in t.ops
    requires CanRun(t, steps) && u == After(t, steps)
    requires Enabled(u, InsertGrant(o)) && u.ops[o] == t.ops[o]
    ensures Revoked(u, u.ops[o].op.target) <==> exists step | step in steps :: Revokes(step, u.ops[o].op.target)
  {
    var target := s.ops[o].op.target;
    PassedGrant(s, t, o);
    hide Revoked, Revokes, CanRun, After, Next;
    RevokedInRun(t, steps, target);
  }

  lemma PassedGrant(s: State, t: State, o: OpId)
    requires Enabled(s, CheckGrant(o)) && t == Next(s, CheckGrant(o)) && o in t.ops
    ensures t.ops[o].op.GrantChecked? && t.ops[o].op.target == s.ops[o].op.target
    ensures s.ops[o].op.target in t.keys && !Revoked(t, s.ops[o].op.target)
  {
    assert o !in End(s, o).ops;
  }
}
