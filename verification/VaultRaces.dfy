/** The races the server's checks leave open, and what a command does that nobody disturbs. */
module VaultRaces {
  import opened Wrappers
  import opened Crypto
  import opened CredentialCipher
  import opened VaultModel
  import opened VaultInvariant
  import opened VaultPreserved
  import opened VaultHealth
  import opened VaultTheorems

  /** The credential is stored and the current key does not open it. */
  predicate StoredUnopenable(s: State, r: CredRef) {
    r in s.creds && !Healthy(s, r)
  }

  ghost predicate Racing(s: State, u: OpId, o: OpId) {
    && Enabled(s, InsertUpload(u)) && Enabled(s, CommitRotate(o))
    && WinsCas(s, s.ops[o].op.rotation) && s.ops[u].op.cred !in s.ops[o].op.rotation.deks
  }

  /** A rotation past its coverage check cannot cover a credential that is still being uploaded. */
  lemma PastChecksRace(s: State, u: OpId, o: OpId)
    requires Inv(s) && Enabled(s, InsertUpload(u)) && Enabled(s, CommitRotate(o)) && WinsCas(s, s.ops[o].op.rotation)
    ensures Racing(s, u, o)
  {
    assert UploadOf(s.ops[u].op) == Some(s.ops[u].op.cred);
    CoveredRotation(s, o);
  }

  /** The step can happen, and then the credential is stored and unopenable. */
  ghost predicate StepStrands(s: State, step: Step, r: CredRef) {
    Enabled(s, step) && StoredUnopenable(Next(s, step), r)
  }

  lemma InsertLeavesRotation(s: State, t: State, u: OpId, o: OpId)
    requires Racing(s, u, o) && t == Next(s, InsertUpload(u))
    ensures s.ops[u].op.cred in t.creds && Racing(s, u, o) && Enabled(t, CommitRotate(o))
    ensures t.ops[o] == s.ops[o] && t.vault == s.vault
  {
  }

  /** A winning rotation strands every stored row it does not cover. */
  lemma UncoveredIsStranded(s: State, o: OpId, r: CredRef)
    requires Inv(s) && Enabled(s, CommitRotate(o)) && WinsCas(s, s.ops[o].op.rotation)
    requires r in s.creds && r !in s.ops[o].op.rotation.deks
    ensures StepStrands(s, CommitRotate(o), r)
  {
    hide Inv, CommitRotateStep, Healthy, WinsCas;
    CommitHealth(s, o, r);
    CommitKeepsRows(s, o);
  }

  lemma InsertThenRotate(s: State, t: State, u: OpId, o: OpId, cred: CredRef)
    requires Racing(s, u, o) && t == Next(s, InsertUpload(u)) && s.ops[u].op.cred == cred && Inv(s)
    ensures StepStrands(t, CommitRotate(o), cred)
  {
    hide StepStrands, HistoryOk, WrapsOk, RecoveryOk, CachesOk, PendingOk, UploadsOk, CredsOk, OpsOk, Grows;
    InsertLeavesRotation(s, t, u, o);
    InsertUploadKeeps(s, u);
    UncoveredIsStranded(t, o, cred);
  }

  /** An insert is stranded unless it carries the current version and this organization's key. */
  lemma OldInsertIsStranded(t: State, u: OpId)
    requires Inv(t) && Enabled(t, InsertUpload(u))
    requires t.ops[u].op.own ==> t.ops[u].op.envelope.vaultVersion < |t.history|
    ensures StepStrands(t, InsertUpload(u), t.ops[u].op.cred)
  {
    InsertHealth(t, u, t.ops[u].op.cred);
    hide Inv, Healthy;
  }

  lemma RotationLeavesInsert(s: State, t: State, u: OpId, o: OpId)
    requires Racing(s, u, o) && t == CommitRotateStep(s, o) && Inv(s)
    ensures Enabled(t, InsertUpload(u)) && t.ops[u] == s.ops[u] && |t.history| == |s.history| + 1
  {
    hide HistoryOk, WrapsOk, RecoveryOk, CachesOk, PendingOk, UploadsOk, CredsOk, OpsOk, WrapsFor, BatchFrame;
    WonBatch(s, o);
  }

  lemma UploadIsNotAhead(s: State, u: OpId)
    requires OpsOk(s) && Enabled(s, InsertUpload(u))
    ensures s.ops[u].op.own ==> s.ops[u].op.envelope.vaultVersion <= |s.history|
  {
    assert OpOk(s, s.ops[u].op);
  }

  lemma RotateThenInsert(s: State, t: State, u: OpId, o: OpId, cred: CredRef)
    requires Racing(s, u, o) && t == CommitRotateStep(s, o) && s.ops[u].op.cred == cred && Inv(s)
    ensures StepStrands(t, InsertUpload(u), cred)
  {
    UploadIsNotAhead(s, u);
    hide StepStrands, CommitRotateStep, Inv;
    RotationLeavesInsert(s, t, u, o);
    CommitKeeps(s, o);
    OldInsertIsStranded(t, u);
  }

  /**
   * An upload past its version check and a rotation past its coverage check, both at
   * the current version, cannot both be served: in either order the credential ends
   * stored and unopenable.
   */
  lemma EitherOrderStrands(s: State, u: OpId, o: OpId)
    requires Inv(s) && Enabled(s, InsertUpload(u)) && Enabled(s, CommitRotate(o)) && WinsCas(s, s.ops[o].op.rotation)
    ensures StepStrands(Next(s, InsertUpload(u)), CommitRotate(o), s.ops[u].op.cred)
    ensures StepStrands(Next(s, CommitRotate(o)), InsertUpload(u), s.ops[u].op.cred)
  {
    hide StepStrands, Inv, CommitRotateStep;
    PastChecksRace(s, u, o);
    InsertThenRotate(s, Next(s, InsertUpload(u)), u, o, s.ops[u].op.cred);
    RotateThenInsert(s, Next(s, CommitRotate(o)), u, o, s.ops[u].op.cred);
  }

  ghost predicate Reachable(orgId: string, s: State) {
    exists steps :: CanRun(Init(orgId), steps) && After(Init(orgId), steps) == s
  }

  lemma {:induction false} AfterSnoc(s: State, steps: seq<Step>, last: Step)
    requires CanRun(s, steps) && Enabled(After(s, steps), last)
    ensures CanRun(s, steps + [last]) && After(s, steps + [last]) == Next(After(s, steps), last)
    decreases |steps|
  {
    if steps == [] {
      assert [last][1..] == [];
    } else {
      assert (steps + [last])[1..] == steps[1..] + [last];
      AfterSnoc(Next(s, steps[0]), steps[1..], last);
    }
  }

  lemma Reach(orgId: string, s: State, step: Step)
    requires Reachable(orgId, s) && Enabled(s, step)
    ensures Reachable(orgId, Next(s, step))
  {
    var steps :| CanRun(Init(orgId), steps) && After(Init(orgId), steps) == s;
    AfterSnoc(Init(orgId), steps, step);
  }

  lemma ReachNext(orgId: string, s: State, step: Step, t: State)
    requires Reachable(orgId, s) && Enabled(s, step) && Next(s, step) == t
    ensures Reachable(orgId, t)
  {
    Reach(orgId, s, step);
  }

  lemma ReachableOk(orgId: string, s: State)
    requires Reachable(orgId, s)
    ensures Inv(s)
  {
    var steps :| CanRun(Init(orgId), steps) && After(Init(orgId), steps) == s;
    InitOk(orgId);
    RunKeeps(Init(orgId), steps);
  }

  // ---------------------------------------------------------------- commands nobody disturbs

  function Running(s: State, o: OpId, device: Identity, org: string, op: Op): State {
    s.(ops := s.ops[o := Command(device, org, op)])
  }

  /** With a key drawn. */
  function Drawn(s: State): State {
    s.(nextKey := s.nextKey + 1)
  }

  /** With a data key drawn for a credential, and that credential sealed. */
  function Sealing(s: State, cred: CredRef, sealed: SealedDek): State {
    Drawn(s).(deks := s.deks[cred := sealed])
  }

  lemma AdvanceRunning(s: State, o: OpId, device: Identity, org: string, op: Op, op': Op)
    ensures Advance(Running(s, o, device, org, op), o, op') == Running(s, o, device, org, op')
  {
    var moved := Command(device, org, op');
    assert s.ops[o := Command(device, org, op)][o := moved] == s.ops[o := moved];
  }

  /** The device has a key cached at the current version, this organization's or not. */
  predicate HoldsCurrentVersion(s: State, device: Identity) {
    s.vault.Some? && device in s.caches && s.caches[device].vaultVersion == |s.history|
  }

  predicate GoodRecipients(s: State, recipients: seq<KeyId>) {
    && (forall i, j | 0 <= i < j < |recipients| :: recipients[i] != recipients[j])
    && (forall k | k in recipients :: k in s.keys && !s.keys[k].ForeignOrgKey())
    && (exists k | k in recipients :: k in s.keys && s.keys[k].kind.Recovery?)
  }

  lemma GoodWraps(s: State, recipients: seq<KeyId>, vaultKey: Key)
    requires GoodRecipients(s, recipients)
    ensures RecipientsAllowed(s, WrapAll(s, recipients, vaultKey))
  {
    var wraps := WrapAll(s, recipients, vaultKey);
    var k :| k in recipients && k in s.keys && s.keys[k].kind.Recovery?;
    var i :| 0 <= i < |recipients| && recipients[i] == k;
    assert wraps[i] in wraps && wraps[i].keyId == k;
    assert forall j | 0 <= j < |wraps| :: wraps[j].keyId == recipients[j];
  }

  lemma ListsOwnDeks(s: State, r: CredRef)
    requires Inv(s) && r in s.creds
    ensures s.creds[r].wrappedDek.binding
         == DekBinding(s.creds[r].wrappedDek.binding.orgId, r.id, s.creds[r].vaultVersion)
  {
    assert RowOk(s, r, s.creds[r]);
  }

  /** The stored row is under the key and bound to the organization. */
  predicate Under(s: State, r: CredRef, key: Key, org: string)
    requires r in s.creds
  {
    s.creds[r].wrappedDek.key == key && s.creds[r].wrappedDek.binding.orgId == org
  }

  /** A key unwraps a fresh listing for an organization exactly when every stored row is under it and bound so. */
  lemma ListingUnwrapsUnder(s: State, org: string, key: Key)
    requires Inv(s)
    ensures AllUnwrap(org, Listing(s), key) <==> forall r | r in s.creds :: Under(s, r, key, org)
  {
    hide Inv, RawDek;
    forall r | r in s.creds
      ensures RawDek(org, r, Listing(s)[r], key).Some? <==> Under(s, r, key, org)
    {
      ListsOwnDeks(s, r);
      UnwrapsUnder(org, r, Listing(s)[r], key);
    }
  }

  /** The true current key unwraps a fresh listing for this organization exactly when it opens every row. */
  lemma ListingUnwraps(s: State, u: Unlocked)
    requires Inv(s) && TrueKey(s, u.vaultKey, |s.history|)
    ensures AllUnwrap(s.orgId, Listing(s), u.vaultKey) <==> AllHealthy(s)
  {
    hide Inv, Healthy, AllUnwrap, TrueKey;
    ListingUnwrapsUnder(s, s.orgId, u.vaultKey);
    forall r | r in s.creds
      ensures Under(s, r, u.vaultKey, s.orgId) <==> Healthy(s, r)
    {
      HealthyByKey(s, u, r);
    }
  }

  /** A rotation of the whole of `s` to new recipients, with the key the device has cached. */
  ghost predicate Prepared(s: State, rotation: Rotation, device: Identity, recipients: seq<KeyId>) {
    && device in s.caches && rotation.vault == s.caches[device] && rotation.vault.vaultVersion == |s.history|
    && rotation.newKey == s.nextKey && rotation.deks.Keys == s.creds.Keys
    && |rotation.wraps| == |recipients|
    && forall i | 0 <= i < |recipients| :: rotation.wraps[i].keyId == recipients[i]
  }

  /** `s` with such a rotation, by `device`, ready to commit as command `o`. */
  ghost predicate RotationReady(s: State, t: State, o: OpId, device: Identity, org: string, recipients: seq<KeyId>) {
    && o in t.ops && t.ops[o].op.RotateCovered? && Prepared(s, t.ops[o].op.rotation, device, recipients)
    && t == Running(Drawn(s), o, device, org, t.ops[o].op)
  }

  lemma ReachListed(orgId: string, s: State, o: OpId, device: Identity, org: string, recipients: seq<KeyId>)
    requires Reachable(orgId, s) && o !in s.ops && HoldsCurrentVersion(s, device) && GoodRecipients(s, recipients)
    ensures Reachable(orgId,
      Running(Drawn(s), o, device, org, RotateListed(s.caches[device], s.nextKey, recipients, Listing(s))))
  {
    var begun := Running(s, o, device, org, Ready(Rotate(recipients), s.caches[device]));
    ReachNext(orgId, s, Begin(o, device, org, Rotate(recipients), true), begun);
    var listed := RotateListed(s.caches[device], s.nextKey, recipients, Listing(s));
    AdvanceRunning(s, o, device, org, begun.ops[o].op, listed);
    ReachNext(orgId, begun, ListDeks(o), Running(Drawn(s), o, device, org, listed));
  }

  lemma RewrapSends(s: State, o: OpId, device: Identity, org: string, recipients: seq<KeyId>, u: Unlocked, key: Key)
    returns (rotation: Rotation)
    requires AllUnwrap(org, Listing(s), u.vaultKey) && GoodRecipients(s, recipients)
    ensures rotation.vault == u && rotation.newKey == key && rotation.deks.Keys == s.creds.Keys
    ensures (forall k | k in recipients :: k in s.keys) && rotation.wraps == WrapAll(s, recipients, key)
    ensures
      var listed := Running(s, o, device, org, RotateListed(u, key, recipients, Listing(s)));
      Enabled(listed, Rewrap(o)) && Next(listed, Rewrap(o)) == Running(s, o, device, org, RotateSent(rotation))
  {
    var op := RotateListed(u, key, recipients, Listing(s));
    var listed := Running(s, o, device, org, op);
    rotation := Rewrapped(listed, org, u, key, recipients, Listing(s));
    AdvanceRunning(s, o, device, org, op, RotateSent(rotation));
  }

  lemma ChecksPass(orgId: string, s: State, o: OpId, device: Identity, org: string, rotation: Rotation)
    requires Reachable(orgId, Running(s, o, device, org, RotateSent(rotation)))
    requires WinsCas(s, rotation) && RecipientsAllowed(s, rotation.wraps) && rotation.deks.Keys == s.creds.Keys
    ensures Reachable(orgId, Running(s, o, device, org, RotateCovered(rotation)))
  {
    var sent := Running(s, o, device, org, RotateSent(rotation));
    var prechecked := Running(s, o, device, org, RotatePrechecked(rotation));
    AdvanceRunning(s, o, device, org, RotateSent(rotation), RotatePrechecked(rotation));
    assert RecipientsAllowed(sent, rotation.wraps);
    ReachNext(orgId, sent, CheckRotate(o), prechecked);
    AdvanceRunning(s, o, device, org, RotatePrechecked(rotation), RotateCovered(rotation));
    ReachNext(orgId, prechecked, CheckCoverage(o), Running(s, o, device, org, RotateCovered(rotation)));
  }

  lemma SameListing(s: State, t: State)
    requires t.creds == s.creds
    ensures Listing(t) == Listing(s)
  {
  }

  lemma SendRotation(orgId: string, s: State, m: State, o: OpId, device: Identity, org: string, recipients: seq<KeyId>)
    returns (rotation: Rotation)
    requires Reachable(orgId, s) && o !in s.ops && HoldsCurrentVersion(s, device) && m == Drawn(s)
    requires AllUnwrap(org, Listing(s), s.caches[device].vaultKey)
    requires GoodRecipients(s, recipients) && GoodRecipients(m, recipients)
    ensures rotation.vault == s.caches[device] && rotation.newKey == s.nextKey && rotation.deks.Keys == s.creds.Keys
    ensures (forall k | k in recipients :: k in m.keys) && rotation.wraps == WrapAll(m, recipients, s.nextKey)
    ensures Reachable(orgId, Running(m, o, device, org, RotateSent(rotation)))
  {
    ReachListed(orgId, s, o, device, org, recipients);
    SameListing(s, m);
    hide Reachable, Listing, AllUnwrap, Next, Enabled, WrapAll, GoodRecipients;
    rotation := SendListed(orgId, m, o, device, org, recipients, s.caches[device], s.nextKey);
  }

  lemma SendListed(
    orgId: string, m: State, o: OpId, device: Identity, org: string, recipients: seq<KeyId>, u: Unlocked, key: Key)
    returns (rotation: Rotation)
    requires Reachable(orgId, Running(m, o, device, org, RotateListed(u, key, recipients, Listing(m))))
    requires AllUnwrap(org, Listing(m), u.vaultKey) && GoodRecipients(m, recipients)
    ensures rotation.vault == u && rotation.newKey == key && rotation.deks.Keys == m.creds.Keys
    ensures (forall k | k in recipients :: k in m.keys) && rotation.wraps == WrapAll(m, recipients, key)
    ensures Reachable(orgId, Running(m, o, device, org, RotateSent(rotation)))
  {
    hide Reachable, AllUnwrap, Listing, Next, Enabled;
    rotation := RewrapSends(m, o, device, org, recipients, u, key);
    var listed := Running(m, o, device, org, RotateListed(u, key, recipients, Listing(m)));
    ReachNext(orgId, listed, Rewrap(o), Running(m, o, device, org, RotateSent(rotation)));
  }

  /**
   * A rotation that nobody disturbs reaches its batch, from every reachable state in
   * which all rows are under the key the device has cached at the current version and
   * bound to the organization the command read.
   */
  lemma RotationPrepares(orgId: string, s: State, o: OpId, device: Identity, org: string, recipients: seq<KeyId>)
    returns (t: State)
    requires Reachable(orgId, s) && o !in s.ops && HoldsCurrentVersion(s, device) && GoodRecipients(s, recipients)
    requires forall r | r in s.creds :: Under(s, r, s.caches[device].vaultKey, org)
    ensures Reachable(orgId, t) && RotationReady(s, t, o, device, org, recipients)
  {
    ReachableOk(orgId, s);
    var m := Drawn(s);
    ListingUnwrapsUnder(s, org, s.caches[device].vaultKey);
    assert s.vault == Some(|s.history|);
    SameRecipients(s, m, recipients);
    hide Inv, RawDek, Reachable, AllUnwrap, GoodRecipients, RecipientsAllowed;
    var rotation := SendRotation(orgId, s, m, o, device, org, recipients);
    GoodWraps(m, recipients, s.nextKey);
    ChecksPass(orgId, m, o, device, org, rotation);
    t := Running(m, o, device, org, RotateCovered(rotation));
  }

  lemma SameRecipients(s: State, t: State, recipients: seq<KeyId>)
    requires t.keys == s.keys && GoodRecipients(s, recipients)
    ensures GoodRecipients(t, recipients)
  {
  }

  /**
   * The vault is one version on, exactly the listed recipients unlock it, every row is
   * still there with its ciphertext and opens, and nobody else was touched.
   */
  ghost predicate RotationDone(s: State, t: State, o: OpId, device: Identity, org: string, recipients: seq<KeyId>) {
    && t.history == s.history + [s.nextKey] && t.vault == Some(|t.history|)
    && (forall k :: k in recipients <==> UnlockAs(t, k).Some?)
    && t.creds.Keys == s.creds.Keys && (forall r | r in s.creds :: t.creds[r].ciphertext == s.creds[r].ciphertext)
    && AllHealthy(t)
    && t.ops == s.ops[o := Command(device, org, RotateCommitted)] && t.keys == s.keys && t.caches == s.caches
  }

  lemma RotationCommits(s: State, t: State, o: OpId, device: Identity, org: string, recipients: seq<KeyId>)
    requires Inv(t) && RotationReady(s, t, o, device, org, recipients) && s.vault.Some?
    requires forall r | r in s.creds :: s.creds[r].vaultVersion == |s.history| && Bound(s, s.creds[r])
    ensures Enabled(t, CommitRotate(o)) && RotationDone(s, CommitRotateStep(t, o), o, device, org, recipients)
  {
    hide Inv, CommitRotateStep, UnlockAs, AllHealthy, Committed, RotationDone, WinsCas, Enabled;
    ReadyWins(s, t, o, device, org, recipients);
    CommittedShape(t, o);
    CoversAll(t, o);
    InstallsListed(t, o, recipients);
    CommittedIsDone(s, t, CommitRotateStep(t, o), o, device, org, recipients);
  }

  lemma CommittedIsDone(s: State, t: State, done: State, o: OpId, device: Identity, org: string, recipients: seq<KeyId>)
    requires RotationReady(s, t, o, device, org, recipients) && Committed(t, done, o) && AllHealthy(done)
    requires forall k :: k in recipients <==> UnlockAs(done, k).Some?
    ensures RotationDone(s, done, o, device, org, recipients)
  {
    hide UnlockAs, AllHealthy;
    assert t.ops[o := Command(device, org, RotateCommitted)] == s.ops[o := Command(device, org, RotateCommitted)];
  }

  lemma CoversAll(t: State, o: OpId)
    requires Inv(t) && Enabled(t, CommitRotate(o)) && WinsCas(t, t.ops[o].op.rotation)
    requires t.ops[o].op.rotation.deks.Keys == t.creds.Keys
    requires forall r | r in t.creds ::
               t.creds[r].vaultVersion == t.ops[o].op.rotation.fromVersion && Bound(t, t.creds[r])
    ensures AllHealthy(CommitRotateStep(t, o))
  {
    hide Inv, Healthy, CommitRotateStep, WinsCas;
    CommitKeepsRows(t, o);
    forall r | r in CommitRotateStep(t, o).creds
      ensures Healthy(CommitRotateStep(t, o), r)
    {
      CommitHealth(t, o, r);
    }
  }

  lemma InstallsListed(t: State, o: OpId, recipients: seq<KeyId>)
    requires Inv(t) && Enabled(t, CommitRotate(o)) && WinsCas(t, t.ops[o].op.rotation)
    requires |t.ops[o].op.rotation.wraps| == |recipients|
    requires forall i | 0 <= i < |recipients| :: t.ops[o].op.rotation.wraps[i].keyId == recipients[i]
    ensures forall k :: k in recipients <==> UnlockAs(CommitRotateStep(t, o), k).Some?
  {
    hide Inv, CommitRotateStep, UnlockAs, WinsCas;
    forall k
      ensures k in recipients <==> UnlockAs(CommitRotateStep(t, o), k).Some?
    {
      RotationInstallsRecipients(t, o, k);
      ListedRecipients(t.ops[o].op.rotation.wraps, recipients, k);
    }
  }

  lemma ListedRecipients(wraps: seq<RecipientWrap>, recipients: seq<KeyId>, k: KeyId)
    requires |wraps| == |recipients| && forall i | 0 <= i < |recipients| :: wraps[i].keyId == recipients[i]
    ensures k in recipients <==> exists w | w in wraps :: w.keyId == k
  {
    if k in recipients {
      var i :| 0 <= i < |recipients| && recipients[i] == k;
      assert wraps[i] in wraps;
    }
  }

  ghost predicate Committed(t: State, done: State, o: OpId)
    requires o in t.ops && t.ops[o].op.RotateCovered?
  {
    && done.ops == t.ops[o := t.ops[o].(op := RotateCommitted)]
    && done.history == t.history + [t.ops[o].op.rotation.newKey] && done.vault == Some(|done.history|)
    && done.keys == t.keys && done.caches == t.caches
    && done.creds.Keys == t.creds.Keys && (forall r | r in t.creds :: done.creds[r].ciphertext == t.creds[r].ciphertext)
  }

  lemma CommittedShape(t: State, o: OpId)
    requires Inv(t) && Enabled(t, CommitRotate(o)) && WinsCas(t, t.ops[o].op.rotation)
    ensures Committed(t, CommitRotateStep(t, o), o)
  {
    hide WrapsOk, RecoveryOk, CachesOk, PendingOk, UploadsOk, CredsOk, OpsOk;
  }

  /**
   * A rotation that nobody disturbs, with the true current key of a reachable state in
   * which every row opens, ends committed with every row openable under the new key.
   */
  lemma RotationCompletes(orgId: string, s: State, o: OpId, device: Identity, recipients: seq<KeyId>) returns (t: State)
    requires Reachable(orgId, s) && o !in s.ops && GoodRecipients(s, recipients)
    requires HoldsCurrentVersion(s, device) && s.caches[device].own && AllHealthy(s)
    ensures Reachable(orgId, t) && RotationDone(s, t, o, device, s.orgId, recipients)
  {
    ReachableOk(orgId, s);
    AllUnderCached(s, device);
    hide Inv, Reachable, GoodRecipients, TrueKey, RotationReady, RotationDone, CommitRotateStep, Enabled;
    var ready := RotationPrepares(orgId, s, o, device, s.orgId, recipients);
    ReachableOk(orgId, ready);
    RotationCommits(s, ready, o, device, s.orgId, recipients);
    t := CommitRotateStep(ready, o);
    ReachCommitted(orgId, ready, o);
  }

  lemma ReachCommitted(orgId: string, s: State, o: OpId)
    requires Reachable(orgId, s) && Enabled(s, CommitRotate(o))
    ensures Reachable(orgId, CommitRotateStep(s, o))
  {
    hide Reachable, CommitRotateStep;
    Reach(orgId, s, CommitRotate(o));
  }

  lemma AllUnderCached(s: State, device: Identity)
    requires Inv(s) && HoldsCurrentVersion(s, device) && s.caches[device].own && AllHealthy(s)
    ensures forall r | r in s.creds ::
              && Under(s, r, s.caches[device].vaultKey, s.orgId)
              && s.creds[r].vaultVersion == |s.history| && Bound(s, s.creds[r])
  {
    CachedIsTrue(s, device);
    hide Inv;
  }

  lemma ReadyWins(s: State, t: State, o: OpId, device: Identity, org: string, recipients: seq<KeyId>)
    requires Inv(t) && RotationReady(s, t, o, device, org, recipients) && s.vault.Some?
    ensures Enabled(t, CommitRotate(o)) && WinsCas(t, t.ops[o].op.rotation)
  {
    hide WrapsOk, RecoveryOk, CachesOk, PendingOk, UploadsOk, CredsOk, OpsOk;
  }

  lemma CachedIsTrue(s: State, device: Identity)
    requires Inv(s) && HoldsCurrentVersion(s, device)
    ensures s.caches[device].own <==> TrueKey(s, s.caches[device].vaultKey, |s.history|)
  {
    assert UnlockedOk(s, s.caches[device]);
  }

  /** The version check lets an upload with the device's cached key through. */
  predicate HoldsAdmittedVersion(s: State, device: Identity) {
    device in s.caches && (s.vault.None? || s.caches[device].vaultVersion == s.vault.value)
  }

  /** `s` with an upload of `cred` under the key `u`, sealed as `sealed` says, ready to insert as command `o`. */
  ghost predicate UploadReady(
    s: State, t: State, o: OpId, device: Identity, u: Unlocked, cred: CredRef, sealed: SealedDek) {
    && o in t.ops && t.ops[o].op.UploadChecked? && t.ops[o].op.cred == cred && t.ops[o].op.own == u.own
    && t.ops[o].op.envelope.vaultVersion == u.vaultVersion
    && t.ops[o].op.envelope.wrappedDek.key == u.vaultKey
    && t.ops[o].op.envelope.wrappedDek.binding.orgId == sealed.orgId
    && t == Running(Sealing(s, cred, sealed), o, device, sealed.orgId, t.ops[o].op)
  }

  /** The data key an upload draws in `s`, and what it seals under it. */
  function SealedNow(s: State, org: string, metadata: Record, secret: Record): SealedDek {
    SealedDek(s.nextKey, org, metadata, secret)
  }

  /** An upload of `cred` by a command that has unlocked `u`. */
  function Uploading(cred: CredRef, metadata: Record, secret: Record, u: Unlocked): Op {
    Ready(Upload(cred.credentialType, metadata, secret), u)
  }

  lemma ReachSealed(
    orgId: string, s: State, o: OpId, device: Identity, org: string, u: Unlocked,
    cred: CredRef, metadata: Record, secret: Record)
    returns (e: Envelope)
    requires Reachable(orgId, Running(s, o, device, org, Uploading(cred, metadata, secret, u))) && cred !in s.deks
    ensures e.vaultVersion == u.vaultVersion && e.wrappedDek.key == u.vaultKey
    ensures e.wrappedDek.binding.orgId == org
    ensures Reachable(orgId,
      Running(Sealing(s, cred, SealedNow(s, org, metadata, secret)), o, device, org, UploadSent(cred, e, u.own)))
  {
    var ready := Running(s, o, device, org, Uploading(cred, metadata, secret, u));
    var session := Session(org, u.vaultKey, u.vaultVersion);
    e := SealForUpload(session, cred.id, s.nextKey, cred.credentialType, metadata, secret);
    AdvanceRunning(s, o, device, org, ready.ops[o].op, UploadSent(cred, e, u.own));
    ReachNext(orgId, ready, Seal(o, cred.id),
      Running(Sealing(s, cred, SealedNow(s, org, metadata, secret)), o, device, org, UploadSent(cred, e, u.own)));
  }

  /** An upload that nobody disturbs gets from its key to its insert, if the version check lets that key through. */
  lemma UploadGoesOn(
    orgId: string, s: State, o: OpId, device: Identity, org: string, u: Unlocked,
    cred: CredRef, metadata: Record, secret: Record)
    returns (t: State)
    requires Reachable(orgId, Running(s, o, device, org, Uploading(cred, metadata, secret, u))) && cred !in s.deks
    requires s.vault.None? || s.vault.value == u.vaultVersion
    ensures Reachable(orgId, t) && UploadReady(s, t, o, device, u, cred, SealedNow(s, org, metadata, secret))
  {
    var e := ReachSealed(orgId, s, o, device, org, u, cred, metadata, secret);
    hide Reachable;
    var m := Sealing(s, cred, SealedNow(s, org, metadata, secret));
    t := Running(m, o, device, org, UploadChecked(cred, e, u.own));
    AdvanceRunning(m, o, device, org, UploadSent(cred, e, u.own), UploadChecked(cred, e, u.own));
    ReachNext(orgId, Running(m, o, device, org, UploadSent(cred, e, u.own)), CheckUpload(o), t);
  }

  /**
   * An upload that nobody disturbs reaches its insert, whatever key its device has cached
   * and whatever organization it read, if the vault is at the key's version or there is none.
   */
  lemma UploadPrepares(
    orgId: string, s: State, o: OpId, device: Identity, org: string, cred: CredRef, metadata: Record, secret: Record)
    returns (t: State)
    requires Reachable(orgId, s) && o !in s.ops && HoldsAdmittedVersion(s, device) && cred !in s.deks
    ensures Reachable(orgId, t)
    ensures UploadReady(s, t, o, device, s.caches[device], cred, SealedNow(s, org, metadata, secret))
  {
    hide Reachable;
    var u, task := s.caches[device], Upload(cred.credentialType, metadata, secret);
    ReachNext(orgId, s, Begin(o, device, org, task, true),
      Running(s, o, device, org, Uploading(cred, metadata, secret, u)));
    t := UploadGoesOn(orgId, s, o, device, org, u, cred, metadata, secret);
  }
}
