/** What can really happen: runs from the empty organization that end in the states the theorems exclude. */
module VaultRuns {
  import opened Wrappers
  import opened Crypto
  import opened VaultModel
  import opened VaultInvariant
  import opened VaultPreserved
  import opened VaultHealth
  import opened VaultTheorems
  import opened VaultCache
  import opened VaultRevocation
  import opened VaultRaces

  // ---------------------------------------------------------------- one run, step by step

  function DeviceRow(): KeyRow {
    KeyRow(PublicKey(0), Device, false, false)
  }

  function RecoveryRow(): KeyRow {
    KeyRow(PublicKey(1), Recovery, false, false)
  }

  function BootWraps(): seq<RecipientWrap> {
    [RecipientWrap(0, AgeBlob(PublicKey(0), 0)), RecipientWrap(1, AgeBlob(PublicKey(1), 0))]
  }

  /** A first device, and its bootstrap command at program counter `op`. */
  function Booting(orgId: string, keys: map<KeyId, KeyRow>, op: Op): State {
    Init(orgId).(keys := keys, nextKey := 1, ops := map[0 := Command(0, orgId, op)])
  }

  /** One device has bootstrapped the vault; key 0 is the vault key of version 1. */
  function Booted(orgId: string): State {
    Init(orgId).(
      vault := Some(1),
      wraps := map[
        (1, 0) := WrapRow(AgeBlob(PublicKey(0), 0), true),
        (1, 1) := WrapRow(AgeBlob(PublicKey(1), 0), true)],
      keys := map[0 := DeviceRow(), 1 := RecoveryRow()],
      nextKey := 1,
      history := [0])
  }

  function Minted(orgId: string): State {
    Booting(orgId, map[0 := DeviceRow()], BootMinted(0, 0, PublicKey(0), 1))
  }

  function Sent(orgId: string): State {
    Booting(orgId, map[0 := DeviceRow(), 1 := RecoveryRow()], BootSent(Bootstrap(0, BootWraps())))
  }

  function CheckedBoot(orgId: string): State {
    Booting(orgId, map[0 := DeviceRow(), 1 := RecoveryRow()], BootChecked(Bootstrap(0, BootWraps())))
  }

  lemma ReachMinted(orgId: string)
    ensures Reachable(orgId, Minted(orgId))
  {
    var s0 := Init(orgId);
    assert CanRun(s0, []) && After(s0, []) == s0;
    var s1 := s0.(keys := map[0 := DeviceRow()]);
    ReachNext(orgId, s0, RegisterKey(0, DeviceRow()), s1);
    ReachNext(orgId, s1, BeginBootstrap(0, 0, 0, 1), Minted(orgId));
  }

  lemma ReachSent(orgId: string)
    ensures Reachable(orgId, Sent(orgId))
  {
    ReachMinted(orgId);
    ReachNext(orgId, Minted(orgId), RegisterRecovery(0, 1), Sent(orgId));
  }

  lemma ReachChecked(orgId: string)
    ensures Reachable(orgId, CheckedBoot(orgId))
  {
    ReachSent(orgId);
    assert BootWraps()[1] in BootWraps() && RecipientsAllowed(Sent(orgId), BootWraps());
    ReachNext(orgId, Sent(orgId), CheckBootstrap(0), CheckedBoot(orgId));
  }

  lemma OneRow(wraps: seq<RecipientWrap>)
    requires |wraps| == 1
    ensures WrapRows(1, wraps) == map[(1, wraps[0].keyId) := WrapRow(wraps[0].wrapped, true)]
  {
    assert wraps[..0] == [];
  }

  lemma TwoRows(wraps: seq<RecipientWrap>)
    requires |wraps| == 2
    ensures WrapRows(1, wraps)
         == map[(1, wraps[0].keyId) := WrapRow(wraps[0].wrapped, true)]
               [(1, wraps[1].keyId) := WrapRow(wraps[1].wrapped, true)]
  {
    OneRow(wraps[..1]);
  }

  lemma BootRows(orgId: string)
    ensures WrapRows(1, BootWraps()) == Booted(orgId).wraps
  {
    TwoRows(BootWraps());
  }

  lemma BootCommits(orgId: string)
    ensures CommitBootstrapStep(CheckedBoot(orgId), 0) == Booted(orgId)
  {
    BootRows(orgId);
    hide WrapRows, BootWraps, DeviceRow, RecoveryRow;
    assert End(CheckedBoot(orgId), 0).ops == map[];
    var rows := WrapRows(1, BootWraps());
    assert map[] + rows == rows;
  }

  lemma ReachBooted(orgId: string)
    ensures Reachable(orgId, Booted(orgId))
  {
    ReachChecked(orgId);
    BootCommits(orgId);
    hide Reachable, CommitBootstrapStep;
    Reach(orgId, CheckedBoot(orgId), CommitBootstrap(0));
  }

  /** The booted organization with the first device's key in its cache. */
  function Cached(orgId: string): State {
    Booted(orgId).(caches := map[0 := Unlocked(0, 1, true)])
  }

  lemma ReachCached(orgId: string) returns (s: State)
    ensures Reachable(orgId, s) && s == Cached(orgId)
  {
    ReachBooted(orgId);
    var b := Booted(orgId);
    var task := Rotate([]);
    var s1 := Running(b, 0, 0, orgId, Unlocking(task));
    ReachNext(orgId, b, Begin(0, 0, orgId, task, false), s1);
    var s2 := Running(b, 0, 0, orgId, Fetched(task, Unlocked(0, 1, true)));
    AdvanceRunning(b, 0, 0, orgId, Unlocking(task), Fetched(task, Unlocked(0, 1, true)));
    ReachNext(orgId, s1, FetchWrap(0, 0), s2);
    var s3 := Running(b, 0, 0, orgId, Ready(task, Unlocked(0, 1, true))).(caches := map[0 := Unlocked(0, 1, true)]);
    AdvanceRunning(b, 0, 0, orgId, Fetched(task, Unlocked(0, 1, true)), Ready(task, Unlocked(0, 1, true)));
    ReachNext(orgId, s2, StoreCache(0, true), s3);
    s := b.(caches := map[0 := Unlocked(0, 1, true)]);
    assert s3.ops - {0} == b.ops;
    ReachNext(orgId, s3, Crash(0), s);
  }

  // ---------------------------------------------------------------- an upload and a rotation

  /** An upload of `cred` and a rotation, both past their checks at the current version of a vault without rows. */
  ghost predicate Race(s: State, cred: CredRef) {
    && s.ops.Keys == {0, 1} && s.creds == map[] && HoldsCurrentVersion(s, 0) && GoodRecipients(s, [0, 1])
    && s.caches[0].own
    && s.ops[0].op.UploadChecked? && s.ops[0].op.cred == cred && s.ops[0].op.envelope.vaultVersion == |s.history|
    && s.ops[0].op.own && s.ops[0].op.envelope.wrappedDek.key == s.caches[0].vaultKey
    && Bound(s, s.ops[0].op.envelope)
    && RotationMissing(s, 1, cred)
  }

  ghost predicate RotationMissing(s: State, o: OpId, cred: CredRef) {
    o in s.ops && s.ops[o].op.RotateCovered? && WinsCas(s, s.ops[o].op.rotation) && cred !in s.ops[o].op.rotation.deks
  }

  lemma ReachRace(orgId: string, cred: CredRef) returns (s: State)
    ensures Reachable(orgId, s) && Race(s, cred) && s.orgId == orgId
  {
    hide Reachable, Next, Enabled;
    var b := ReachCached(orgId);
    var u := UploadPrepares(orgId, b, 0, 0, orgId, cred, map[], map[]);
    assert u.creds == map[] && u.history == [0] && u.caches == b.caches && u.keys == b.keys && u.orgId == orgId;
    TwoRecipients(u);
    s := RotationPrepares(orgId, u, 1, 0, orgId, [0, 1]);
  }

  lemma TwoRecipients(s: State)
    requires s.keys == map[0 := DeviceRow(), 1 := RecoveryRow()]
    ensures GoodRecipients(s, [0, 1])
  {
    assert [0, 1][1] == 1 && s.keys[1].kind.Recovery?;
  }

  lemma RaceIsRacing(s: State, cred: CredRef)
    requires Race(s, cred)
    ensures Racing(s, 0, 1) && s.ops[0].op.cred == cred
  {
  }

  /** Some run stores a credential that the current vault key does not open. */
  lemma StrandingIsReachable(orgId: string, cred: CredRef)
    ensures exists s :: Reachable(orgId, s) && StoredUnopenable(s, cred)
  {
    var s := ReachRace(orgId, cred);
    hide Inv, Reachable, Next, Race, Racing, StoredUnopenable;
    ReachableOk(orgId, s);
    RaceIsRacing(s, cred);
    assert Enabled(s, InsertUpload(0));
    var t := Next(s, InsertUpload(0));
    InsertThenRotate(s, t, 0, 1, cred);
    Reach(orgId, s, InsertUpload(0));
    Reach(orgId, t, CommitRotate(1));
  }

  /** The row is at the current version, but under a key that was thrown away. */
  ghost predicate FalselyCurrent(s: State, r: CredRef) {
    r in s.creds && s.creds[r].vaultVersion == |s.history| && Discarded(s, s.creds[r].wrappedDek.key)
  }

  /** The losing rotation's batch moves a stale row it covers to the current version, under its own key. */
  lemma LoserRelabels(s: State, o: OpId, r: CredRef)
    requires Enabled(s, CommitRotate(o)) && r in s.creds && r in s.ops[o].op.rotation.deks
    requires s.ops[o].op.rotation.fromVersion + 1 == |s.history| && s.creds[r].vaultVersion + 1 == |s.history|
    requires Inv(s)
    ensures FalselyCurrent(CommitRotateStep(s, o), r)
  {
    VaultIsHistory(s);
    BatchRewrites(s, o, r);
    hide Inv, Discarded, CommitRotateStep;
    LostRotation(s, o);
  }

  lemma VaultIsHistory(s: State)
    requires Inv(s)
    ensures s.vault == (if s.history == [] then None else Some(|s.history|))
  {
  }

  lemma BatchRewrites(s: State, o: OpId, r: CredRef)
    requires Enabled(s, CommitRotate(o)) && r in s.creds
    ensures
      var t := CommitRotateStep(s, o);
      r in t.creds && t.creds[r] == RewrittenRow(s.creds[r], r, s.ops[o].op.rotation)
  {
  }

  /** The upload of the race lands; the rotation that missed it stays at its batch. */
  ghost predicate Landed(t: State, cred: CredRef) {
    && t.ops.Keys == {1} && t.creds.Keys == {cred} && t.creds[cred].vaultVersion == |t.history|
    && RotationMissing(t, 1, cred) && HoldsCurrentVersion(t, 0) && GoodRecipients(t, [0, 1])
    && Under(t, cred, t.caches[0].vaultKey, t.orgId)
  }

  lemma RaceInserts(s: State, cred: CredRef)
    requires Race(s, cred)
    ensures Landed(Next(s, InsertUpload(0)), cred)
  {
  }

  lemma ReachStored(orgId: string, cred: CredRef) returns (t: State)
    ensures Reachable(orgId, t) && Landed(t, cred) && t.orgId == orgId
  {
    var s := ReachRace(orgId, cred);
    hide Reachable, Landed;
    RaceInserts(s, cred);
    Reach(orgId, s, InsertUpload(0));
    t := Next(s, InsertUpload(0));
  }

  ghost predicate RotationCovering(s: State, o: OpId, cred: CredRef) {
    o in s.ops && s.ops[o].op.RotateCovered? && WinsCas(s, s.ops[o].op.rotation) && cred in s.ops[o].op.rotation.deks
  }

  /** Both rotations of one version are past their checks; the stored row is in the second's list only. */
  lemma ReachTwoRotations(orgId: string, cred: CredRef) returns (s: State)
    ensures Reachable(orgId, s) && Inv(s) && cred in s.creds && s.creds[cred].vaultVersion == |s.history|
    ensures RotationMissing(s, 1, cred) && RotationCovering(s, 2, cred)
  {
    hide Reachable, Next, Inv;
    var b := ReachStored(orgId, cred);
    s := RotationPrepares(orgId, b, 2, 0, orgId, [0, 1]);
    ReachableOk(orgId, s);
    ReachableOk(orgId, b);
    ReadyWins(b, s, 2, 0, orgId, [0, 1]);
  }

  /**
   * Some run ends with a stored credential that carries the current version but no
   * key of the vault's history: a rotation that lost its compare-and-swap wrote it.
   */
  lemma RelabellingIsReachable(orgId: string, cred: CredRef)
    ensures exists s :: Reachable(orgId, s) && FalselyCurrent(s, cred)
  {
    hide Reachable, CommitRotateStep, Inv, FalselyCurrent, WinsCas;
    var s := ReachTwoRotations(orgId, cred);
    var t := CommitRotateStep(s, 1);
    FirstWins(s, t, cred);
    CommitKeeps(s, 1);
    ReachCommitted(orgId, s, 1);
    LoserRelabels(t, 2, cred);
    ReachCommitted(orgId, t, 2);
  }

  lemma FirstWins(s: State, t: State, cred: CredRef)
    requires RotationMissing(s, 1, cred) && RotationCovering(s, 2, cred) && t == CommitRotateStep(s, 1)
    requires cred in s.creds && s.creds[cred].vaultVersion == |s.history|
    requires Inv(s)
    ensures Enabled(s, CommitRotate(1)) && Enabled(t, CommitRotate(2)) && t.ops[2] == s.ops[2]
    ensures cred in t.creds && t.creds[cred].vaultVersion + 1 == |t.history|
    ensures s.ops[2].op.rotation.fromVersion + 1 == |t.history|
  {
    hide Inv, CommitRotateStep;
    VaultIsHistory(s);
    CommittedShape(s, 1);
    BatchRewrites(s, 1, cred);
  }

  // ---------------------------------------------------------------- a device of two organizations

  /** The booted organization and another one at version 1, whose key, 1, the first device has cached. */
  function Shared(orgId: string): State {
    Booted(orgId).(foreign := {1}, nextKey := 2, caches := map[0 := Unlocked(1, 1, false)])
  }

  lemma ReachShared(orgId: string)
    ensures Reachable(orgId, Shared(orgId))
  {
    ReachBooted(orgId);
    var b := Booted(orgId);
    var drawn := b.(foreign := {1}, nextKey := 2);
    hide Reachable;
    assert b.foreign + {b.nextKey} == {1};
    ReachNext(orgId, b, DrawElsewhere, drawn);
    ReachNext(orgId, drawn, CacheElsewhere(0, 1, 1), Shared(orgId));
  }

  /** A run that has not stored a credential has not overtaken it. */
  lemma {:induction false} NotLandedNotOvertaken(s: State, steps: seq<Step>, r: CredRef)
    requires Inv(s) && CanRun(s, steps) && r !in After(s, steps).landed
    ensures !EverOvertaken(s, steps, r)
    decreases |steps|
  {
    hide Inv, Next, Overtaken;
    if steps != [] {
      var t := Next(s, steps[0]);
      StepKeeps(s, steps[0]);
      RunKeeps(t, steps[1..]);
      LandedGrows(t, After(t, steps[1..]));
      if Overtaken(s, steps[0], r) {
        OvertakenIsLanded(s, steps[0], t, r);
      }
      NotLandedNotOvertaken(t, steps[1..], r);
    }
  }

  lemma OvertakenIsLanded(s: State, step: Step, t: State, r: CredRef)
    requires Enabled(s, step) && t == Next(s, step) && Overtaken(s, step, r)
    requires Inv(s) && Grows(s, t)
    ensures r in t.landed
  {
    LandedGrows(s, t);
    if step.CommitRotate? {
      assert r in s.landed;
    }
  }

  lemma {:induction false} OvertakenSnoc(s: State, steps: seq<Step>, last: Step, r: CredRef)
    requires CanRun(s, steps) && Enabled(After(s, steps), last) && CanRun(s, steps + [last])
    requires !EverOvertaken(s, steps, r) && !Overtaken(After(s, steps), last, r)
    ensures !EverOvertaken(s, steps + [last], r)
    decreases |steps|
  {
    hide Next, Overtaken, Enabled;
    if steps == [] {
      assert [] + [last] == [last] && [last][1..] == [];
    } else {
      assert (steps + [last])[1..] == steps[1..] + [last];
      OvertakenSnoc(Next(s, steps[0]), steps[1..], last, r);
    }
  }

  ghost predicate ForeignUploadReady(orgId: string, t: State, cred: CredRef) {
    UploadReady(Shared(orgId), t, 0, 0, Unlocked(1, 1, false), cred, SealedNow(Shared(orgId), orgId, map[], map[]))
  }

  /** The shared device's upload, past its version check. */
  lemma ReachForeignUpload(orgId: string, cred: CredRef) returns (t: State)
    ensures Reachable(orgId, t) && ForeignUploadReady(orgId, t, cred)
  {
    ReachShared(orgId);
    hide Reachable;
    t := UploadPrepares(orgId, Shared(orgId), 0, 0, orgId, cred, map[], map[]);
  }

  lemma ForeignInsert(orgId: string, t: State, cred: CredRef)
    requires ForeignUploadReady(orgId, t, cred)
    ensures Enabled(t, InsertUpload(0)) && !Overtaken(t, InsertUpload(0), cred) && cred !in t.landed
    ensures
      var u := Next(t, InsertUpload(0));
      && u.ops == map[] && u.creds.Keys == {cred}
      && u.creds[cred].vaultVersion == 1 && Under(u, cred, 1, orgId) && u.orgId == orgId
      && u.history == [0] && u.caches == map[0 := Unlocked(1, 1, false)] && u.vault == Some(1)
      && u.keys == map[0 := DeviceRow(), 1 := RecoveryRow()]
  {
    assert t.ops - {0} == map[];
  }

  /** No write of the run overtook the credential, and still the current key does not open it. */
  ghost predicate UnopenableThough(orgId: string, steps: seq<Step>, cred: CredRef) {
    && CanRun(Init(orgId), steps) && !EverOvertaken(Init(orgId), steps, cred)
    && StoredUnopenable(After(Init(orgId), steps), cred)
  }

  /** A run to the upload's insert, and that insert: its credential is stored, and no write of it was overtaken. */
  ghost predicate LandsInTime(orgId: string, steps: seq<Step>, cred: CredRef) {
    && CanRun(Init(orgId), steps) && !EverOvertaken(Init(orgId), steps, cred)
    && cred in After(Init(orgId), steps).creds
  }

  lemma LandInTime(orgId: string, t: State, cred: CredRef) returns (steps: seq<Step>)
    requires Reachable(orgId, t) && Enabled(t, InsertUpload(0)) && !Overtaken(t, InsertUpload(0), cred)
    requires cred !in t.landed && cred in Next(t, InsertUpload(0)).creds
    ensures LandsInTime(orgId, steps, cred) && After(Init(orgId), steps) == Next(t, InsertUpload(0))
  {
    var before :| CanRun(Init(orgId), before) && After(Init(orgId), before) == t;
    InitOk(orgId);
    hide CanRun, After, Next, Inv, Overtaken, EverOvertaken, Init;
    NotLandedNotOvertaken(Init(orgId), before, cred);
    AfterSnoc(Init(orgId), before, InsertUpload(0));
    OvertakenSnoc(Init(orgId), before, InsertUpload(0), cred);
    steps := before + [InsertUpload(0)];
  }

  lemma InTimeThough(orgId: string, steps: seq<Step>, cred: CredRef)
    requires LandsInTime(orgId, steps, cred) && !Healthy(After(Init(orgId), steps), cred)
    ensures UnopenableThough(orgId, steps, cred)
  {
  }

  /**
   * Some run stores a credential that the current key does not open although no write
   * of it was overtaken: its command worked with another organization's key of the same
   * version number, which it found in the keychain.
   */
  lemma ForeignSealIsReachable(orgId: string, cred: CredRef)
    ensures exists steps :: UnopenableThough(orgId, steps, cred)
  {
    var t := ReachForeignUpload(orgId, cred);
    ForeignInsert(orgId, t, cred);
    hide Next, UploadReady, Overtaken, LandsInTime, Reachable;
    var steps := LandInTime(orgId, t, cred);
    InTimeThough(orgId, steps, cred);
  }

  /** The step opens a stored credential that did not open before it. */
  ghost predicate Heals(s: State, step: Step, cred: CredRef) {
    Enabled(s, step) && StoredUnopenable(s, cred) && Healthy(Next(s, step), cred)
  }

  /** Some run goes on to open that credential: a rotation that works with the same wrong key covers it. */
  lemma HealingIsReachable(orgId: string, cred: CredRef)
    ensures exists s, o :: Reachable(orgId, s) && Heals(s, CommitRotate(o), cred) && StrayRotation(s, CommitRotate(o))
  {
    var t := ReachForeignUpload(orgId, cred);
    ForeignInsert(orgId, t, cred);
    hide Reachable, Inv, UploadReady, CommitRotateStep;
    var u := Next(t, InsertUpload(0));
    Reach(orgId, t, InsertUpload(0));
    TwoRecipients(u);
    var s := RotationPrepares(orgId, u, 0, 0, orgId, [0, 1]);
    ReachableOk(orgId, s);
    ReadyWins(u, s, 0, 0, orgId, [0, 1]);
    StrayHeals(u, s, cred);
  }

  lemma StrayHeals(u: State, s: State, cred: CredRef)
    requires RotationReady(u, s, 0, 0, u.orgId, [0, 1])
    requires Enabled(s, CommitRotate(0)) && WinsCas(s, s.ops[0].op.rotation)
    requires u.creds.Keys == {cred} && u.creds[cred].vaultVersion == 1 && Under(u, cred, 1, u.orgId)
    requires u.history == [0] && u.caches == map[0 := Unlocked(1, 1, false)] && Inv(s)
    ensures Heals(s, CommitRotate(0), cred) && StrayRotation(s, CommitRotate(0))
  {
    hide Inv, CommitRotateStep;
    CommitHealth(s, 0, cred);
  }

  /** Another organization's key in the keychain of a device, and nothing else. */
  function Visited(orgId: string): State {
    Init(orgId).(foreign := {0}, nextKey := 1, caches := map[0 := Unlocked(0, 1, false)])
  }

  /** Some run stores a credential in an organization that has no vault. */
  lemma VaultlessUploadIsReachable(orgId: string, cred: CredRef)
    ensures exists s :: Reachable(orgId, s) && s.vault.None? && cred in s.creds
  {
    var s := Init(orgId);
    assert CanRun(s, []) && After(s, []) == s;
    var drawn := s.(foreign := {0}, nextKey := 1);
    assert s.foreign + {s.nextKey} == {0};
    ReachNext(orgId, s, DrawElsewhere, drawn);
    hide Reachable;
    ReachNext(orgId, drawn, CacheElsewhere(0, 0, 1), Visited(orgId));
    var t := UploadPrepares(orgId, Visited(orgId), 0, 0, orgId, cred, map[], map[]);
    Reach(orgId, t, InsertUpload(0));
  }

  // ---------------------------------------------------------------- a session that is switched

  /** Whatever organization a command read at its start, its insert puts the row, bound there, into this one. */
  lemma UploadLands(s: State, t: State, org: string, u: Unlocked, cred: CredRef)
    requires UploadReady(s, t, 0, 0, u, cred, SealedNow(s, org, map[], map[]))
    requires s.creds == map[] && u.vaultVersion == |s.history| && cred !in s.landed
    ensures Enabled(t, InsertUpload(0)) && !Overtaken(t, InsertUpload(0), cred) && cred !in t.landed
    ensures
      var v := Next(t, InsertUpload(0));
      && v.creds.Keys == {cred} && v.creds[cred].vaultVersion == |v.history| && Under(v, cred, u.vaultKey, org)
      && v.history == s.history && v.orgId == s.orgId && v.caches == s.caches
  {
  }

  /** The row is at the current version, under the true current key, and bound to another organization. */
  predicate BoundElsewhere(s: State, r: CredRef) {
    && r in s.creds && s.creds[r].vaultVersion == |s.history|
    && TrueKey(s, s.creds[r].wrappedDek.key, |s.history|) && !Bound(s, s.creds[r])
  }

  /**
   * Some run stores a credential at the current version under this organization's true
   * key, with no write overtaken and only such keys in the keychains, and still the key
   * does not open it: the session was switched here after the upload had read the
   * organization it binds the data key to.
   */
  lemma SwitchedSealIsReachable(orgId: string, other: string, cred: CredRef)
    requires other != orgId
    ensures exists steps ::
              && UnopenableThough(orgId, steps, cred) && BoundElsewhere(After(Init(orgId), steps), cred)
              && (forall d | d in After(Init(orgId), steps).caches :: After(Init(orgId), steps).caches[d].own)
  {
    var b := ReachCached(orgId);
    hide Reachable;
    var t := UploadPrepares(orgId, b, 0, 0, other, cred, map[], map[]);
    UploadLands(b, t, other, b.caches[0], cred);
    hide Next, UploadReady, Overtaken, LandsInTime;
    var steps := LandInTime(orgId, t, cred);
    var s := After(Init(orgId), steps);
    assert BoundElsewhere(s, cred) && s.caches == map[0 := Unlocked(0, 1, true)];
    assert UnopenableThough(orgId, steps, cred) by { InTimeThough(orgId, steps, cred); }
  }

  /** The booted organization, and another one's key, 1, in no keychain. */
  function Apart(orgId: string): State {
    Booted(orgId).(foreign := {1}, nextKey := 2)
  }

  /** An upload, for whichever organization, that unlocked the other organization's vault and kept no key. */
  lemma ReachStrayed(orgId: string, org: string, cred: CredRef)
    ensures Reachable(orgId, Running(Apart(orgId), 0, 0, org, Uploading(cred, map[], map[], Unlocked(1, 1, false))))
  {
    ReachBooted(orgId);
    hide Reachable;
    var b, a, u := Booted(orgId), Apart(orgId), Unlocked(1, 1, false);
    var task := Upload(cred.credentialType, map[], map[]);
    assert b.foreign + {b.nextKey} == {1};
    ReachNext(orgId, b, DrawElsewhere, a);
    ReachNext(orgId, a, Begin(0, 0, org, task, false), Running(a, 0, 0, org, Unlocking(task)));
    AdvanceRunning(a, 0, 0, org, Unlocking(task), Fetched(task, u));
    ReachNext(orgId, Running(a, 0, 0, org, Unlocking(task)), FetchElsewhere(0, 1, 1),
      Running(a, 0, 0, org, Fetched(task, u)));
    AdvanceRunning(a, 0, 0, org, Fetched(task, u), Uploading(cred, map[], map[], u));
    ReachNext(orgId, Running(a, 0, 0, org, Fetched(task, u)), StoreCache(0, false),
      Running(a, 0, 0, org, Uploading(cred, map[], map[], u)));
  }

  /**
   * The same with an empty keychain and whatever organization the command read: the session
   * was switched between the read of the wrap and the insert, so the row is under the other
   * organization's key.
   */
  lemma SwitchedFetchIsReachable(orgId: string, org: string, cred: CredRef)
    ensures exists steps ::
              && UnopenableThough(orgId, steps, cred) && After(Init(orgId), steps).caches == map[]
              && After(Init(orgId), steps).creds[cred].wrappedDek.binding.orgId == org
  {
    var a, u := Apart(orgId), Unlocked(1, 1, false);
    ReachStrayed(orgId, org, cred);
    hide Reachable;
    var t := UploadGoesOn(orgId, a, 0, 0, org, u, cred, map[], map[]);
    UploadLands(a, t, org, u, cred);
    hide Next, UploadReady, Overtaken, LandsInTime;
    var steps := LandInTime(orgId, t, cred);
    assert UnopenableThough(orgId, steps, cred) by { InTimeThough(orgId, steps, cred); }
  }

  // ---------------------------------------------------------------- a wrap of another key

  /** The key unlocks the vault, but not to its current key. */
  ghost predicate UnlocksAnotherKey(s: State, keyId: KeyId) {
    UnlockAs(s, keyId).Some? && !TrueKey(s, UnlockAs(s, keyId).value.vaultKey, |s.history|)
  }

  function JoinerRow(): KeyRow {
    KeyRow(PublicKey(2), Device, false, false)
  }

  /** The two organizations' device, a second device with key 2, and a grant to it at program counter `op`. */
  function Granting(orgId: string, op: Op): State {
    Shared(orgId).(
      keys := map[0 := DeviceRow(), 1 := RecoveryRow(), 2 := JoinerRow()],
      ops := map[0 := Command(0, orgId, op)])
  }

  lemma AdvanceGrant(orgId: string, op: Op, op': Op)
    ensures Advance(Granting(orgId, op), 0, op') == Granting(orgId, op')
  {
    assert map[0 := Command(0, orgId, op)][0 := Command(0, orgId, op')] == map[0 := Command(0, orgId, op')];
  }

  lemma ReachGranting(orgId: string)
    ensures Reachable(orgId, Granting(orgId, Ready(Grant(2), Unlocked(1, 1, false))))
  {
    ReachShared(orgId);
    var s := Shared(orgId);
    var joined := s.(keys := map[0 := DeviceRow(), 1 := RecoveryRow(), 2 := JoinerRow()]);
    hide Reachable;
    ReachNext(orgId, s, RegisterKey(2, JoinerRow()), joined);
    var ready := Ready(Grant(2), Unlocked(1, 1, false));
    ReachNext(orgId, joined, Begin(0, 0, orgId, Grant(2), true), Granting(orgId, ready));
  }

  lemma ReachGranted(orgId: string)
    ensures Reachable(orgId, Granting(orgId, GrantChecked(2, 1, AgeBlob(PublicKey(2), 1), false)))
  {
    ReachGranting(orgId);
    hide Reachable;
    var ready, sent := Ready(Grant(2), Unlocked(1, 1, false)), GrantSent(2, 1, AgeBlob(PublicKey(2), 1), false);
    AdvanceGrant(orgId, ready, sent);
    ReachNext(orgId, Granting(orgId, ready), WrapForTarget(0), Granting(orgId, sent));
    var checked := GrantChecked(2, 1, AgeBlob(PublicKey(2), 1), false);
    AdvanceGrant(orgId, sent, checked);
    ReachNext(orgId, Granting(orgId, sent), CheckGrant(0), Granting(orgId, checked));
  }

  /** Some run leaves a member with a wrap of another organization's key. */
  lemma ForeignWrapIsReachable(orgId: string)
    ensures exists s :: Reachable(orgId, s) && UnlocksAnotherKey(s, 2)
  {
    ReachGranted(orgId);
    var s := Granting(orgId, GrantChecked(2, 1, AgeBlob(PublicKey(2), 1), false));
    hide Reachable;
    Reach(orgId, s, InsertGrant(0));
    assert UnlockAs(Next(s, InsertGrant(0)), 2) == Some(Unlocked(1, 1, false));
  }

  // ---------------------------------------------------------------- a key stored after the cache was cleared

  /**
   * The device's rotation by command `o` is about to clear the keychain entry; then its
   * command `q` stores the key it fetched before, of a version the vault has left.
   */
  ghost predicate StoresStale(s: State, o: OpId, q: OpId) {
    Enabled(s, ForgetCache(o)) &&
    var t := Next(s, ForgetCache(o));
    && Enabled(t, StoreCache(q, true)) && t.ops[q].device == s.ops[o].device
    && t.ops[q].op.vault.vaultVersion < |t.history|
  }

  lemma ReachFetching(orgId: string) returns (s: State)
    ensures Reachable(orgId, s)
    ensures s == Running(Cached(orgId), 1, 0, orgId, Fetched(Rotate([]), Unlocked(0, 1, true)))
  {
    var b := ReachCached(orgId);
    hide Reachable;
    var task, u := Rotate([]), Unlocked(0, 1, true);
    ReachNext(orgId, b, Begin(1, 0, orgId, task, false), Running(b, 1, 0, orgId, Unlocking(task)));
    s := Running(b, 1, 0, orgId, Fetched(task, u));
    AdvanceRunning(b, 1, 0, orgId, Unlocking(task), Fetched(task, u));
    ReachNext(orgId, Running(b, 1, 0, orgId, Unlocking(task)), FetchWrap(1, 0), s);
  }

  /** Some run clears the cache after its own rotation and then stores the key of the version before. */
  lemma StaleStoreIsReachable(orgId: string)
    ensures exists s, o, q :: Reachable(orgId, s) && StoresStale(s, o, q)
  {
    var s := ReachFetching(orgId);
    TwoRecipients(s);
    hide Reachable;
    assert HoldsCurrentVersion(s, 0) && AllHealthy(s);
    var t := RotationCompletes(orgId, s, 2, 0, [0, 1]);
    RotatedStoresStale(s, t);
  }

  lemma RotatedStoresStale(s: State, t: State)
    requires RotationDone(s, t, 2, 0, s.orgId, [0, 1]) && |s.history| == 1
    requires 1 in s.ops && s.ops[1] == Command(0, s.orgId, Fetched(Rotate([]), Unlocked(0, 1, true)))
    ensures StoresStale(t, 2, 1)
  {
    hide AllHealthy, UnlockAs;
  }

  // ---------------------------------------------------------------- a revoked recipient

  /** A third device, registered, and revoked right away. */
  lemma ReachRevoked(orgId: string) returns (s: State)
    ensures Reachable(orgId, s) && Revoked(s, 2) && s.ops == map[] && s.creds == map[]
    ensures s == Cached(orgId).(keys := s.keys)
    ensures GoodRecipients(s, [0, 1, 2])
  {
    var b := ReachCached(orgId);
    hide Reachable;
    var joined := b.(keys := map[0 := DeviceRow(), 1 := RecoveryRow(), 2 := JoinerRow()]);
    ReachNext(orgId, b, RegisterKey(2, JoinerRow()), joined);
    s := joined.(keys := map[0 := DeviceRow(), 1 := RecoveryRow(), 2 := JoinerRow().(revoked := true)]);
    DropsNothing(joined, s);
    ReachNext(orgId, joined, DropDeviceWraps({2}, {2}), s);
    assert [0, 1, 2][1] == 1 && s.keys[1].kind.Recovery?;
  }

  lemma DropsNothing(s: State, t: State)
    requires s.keys == map[0 := DeviceRow(), 1 := RecoveryRow(), 2 := JoinerRow()]
    requires forall k | k in s.wraps :: k.1 != 2
    requires t == s.(keys := map[0 := DeviceRow(), 1 := RecoveryRow(), 2 := JoinerRow().(revoked := true)])
    ensures Enabled(s, DropDeviceWraps({2}, {2})) && Next(s, DropDeviceWraps({2}, {2})) == t
  {
    var u := Next(s, DropDeviceWraps({2}, {2}));
    assert u.wraps == s.wraps;
    assert u.keys == t.keys;
  }

  /** Some run ends with a revoked key that unlocks the vault: a rotation listed it after it was revoked. */
  lemma RevokedUnlockIsReachable(orgId: string)
    ensures exists s :: Reachable(orgId, s) && RevokedUnlocks(s, 2)
  {
    var s := ReachRevoked(orgId);
    hide Reachable, GoodRecipients, UnlockAs;
    assert HoldsCurrentVersion(s, 0) && AllHealthy(s);
    var t := RotationCompletes(orgId, s, 0, 0, [0, 1, 2]);
    assert 2 in [0, 1, 2];
    assert RevokedUnlocks(t, 2);
  }
}
