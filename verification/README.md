# Verification of better-update's client and vault logic

A Dafny model of the parts of better-update whose correctness depends on more than one function
or on the order in which several machines act, with proofs about it. Verify the whole project with
`dafny verify dfyconfig.toml`.

## What is modelled

**The credential vault.** An organization's secrets are sealed under per-credential data keys, the
data keys are wrapped under a vault key, and the vault key is wrapped to devices and to an offline
recovery key. `VaultModel` is that system as a state machine: the server's tables for one organization, every
device's keychain entry, and any number of commands in flight (unlock, upload, grant, rotate, bootstrap), each
a program counter with its locals. The keychain entry is named by the device's key alone
(`apps/cli/src/services/vault-cache.ts:112-125`), so the organizations a device works in share it; the others appear
as the keys they draw and as a step that leaves one of those, or one of this organization's, in a keychain under any
version. Each held key and each wrap carries a mark `own`, which no program reads: it was read off a wrap of this
organization that holds its key. For a key that another organization hands out the mark is, by definition, whether it
happens to be this organization's key of that very version.

A command asks for its organization once, at its start (`apps/cli/src/application/credential-cipher.ts:53-60`, `:87-92`,
`apps/cli/src/application/vault-rotation.ts:40`), and binds data keys to it. The server takes the organization of every
request from the session (`apps/server/src/auth/middleware.ts:248`), and the dashboard switches that
(`apps/web/src/routes/_authed/_app.tsx:103-110`) while the command may be waiting for a passphrase; the CLI's token is
handed over from the browser session (`apps/server/src/auth.ts:293-300`), and that both are one session row is the library's
doing. So a command of the model carries an organization of its own, which is any; it may fetch its key or take its listing
in another organization; and one that goes on in another organization for good has ended here. A listing taken
elsewhere names none of this organization's credentials, so it is the empty one: the coverage check refuses any other.

`VaultInvariant` and `VaultPreserved` hold the inductive invariant, `VaultFrames` what a step
leaves alone; `VaultHealth`, `VaultTheorems`, `VaultCache`, `VaultRevocation`, `VaultStale` and `VaultRaces` what follows,
`VaultUnlock` and `VaultContents` what a caller sees of it, an unlock's answer and an opened secret, in the tables' and the
records' own values, and `VaultRuns` concrete runs that end where the promises fail.

A step is one server statement, one server batch (D1 runs a batch as one transaction) or one local computation, so
commands interleave at every point and may stop at any. Five steps stand for several statements. `FetchWrap` is
`getVault`, `findWrap` and the local unwrap (`apps/server/src/handlers/org-vault.ts:231-240`): the later read decides, since a
rotation between the two leaves no wrap of the version first read, and the command fails, as it may at any point of the model.
`ListDeks` is `getVault` and the listing (`:257-263`), and a vault once there stays. `CheckBootstrap`, `CheckGrant` and
`CheckRotate` are the lookups of the recipients' keys and, for the last two, of the vault (`:94-114`, `:168-193`, `:275-293`): a
key once registered keeps its kind and organization, and the batch or insert that follows compares the version again. A
revocation between the grant's key lookup and the rest of its check is one that comes after the check.

Underneath, `Utf8`, `Decimal` and `Aad` are byte-exact, and `Crypto` is
symbolic: a sealed value opens exactly under the key and the associated-data bytes it was sealed
with, an age wrap opens exactly with its identity, and every drawn key is new. `CredentialCipher` seals and opens
one credential.

**Profile inheritance.** `ExtendsChain` follows `extends`; `EasProfiles` merges the chain.

**Codecs, escapers, parsers.** `Encoding` (base64, base64url, hex; `EncodingText` says it in characters and bits), `Groovy`
(the signing init script), `Dotenv`, `AutoIncrement`, `PatchKey`; `JsText` and `Decimal` hold what they share.

**Diffs and loops.** `Fingerprint` and `FingerprintTheorems` (the source diff, on top of `StableSort`),
`EnvOverlay` (the scoped change of `process.env`), `DrainPages` (the page drain).

## Where the code does not do what its comments say

* `apps/server/src/handlers/org-vault.ts:43-48` says concurrent uploads are kept out of a rotation by
  the upload's own version check. That check and the insert it protects are two statements
  (`apps/server/src/application/assert-vault-version.ts:19-31`, `apps/server/src/handlers/apple-push-keys.ts:55-86`),
  and the coverage check and the rotation are two as well. An upload and a rotation that are both past their
  checks leave a credential the current key does not open, in either order (`VaultRaces.EitherOrderStrands`,
  reached from an empty organization by `VaultRuns.StrandingIsReachable`). Such a row stays unopenable
  (`VaultHealth.NeverHealedLater`) and ends rotation until it is deleted (`VaultTheorems.RotationStops`).
* `apps/cli/src/application/vault-access.ts:156-177` hands out the cached key and version without looking at the
  organization, and a device key is shared between organizations (`apps/server/src/repositories/org-vault.ts:100-101`). A
  command may so work with another organization's key whose version number happens to be current. Then the server's checks
  pass: an upload stores a row that the current key does not open although nothing overtook it
  (`VaultRuns.ForeignSealIsReachable`), a grant leaves a member with a useless wrap (`VaultRuns.ForeignWrapIsReachable`), and an
  organization without a vault stores a credential, which `apps/server/src/application/assert-vault-version.ts:22-26` calls
  impossible (`VaultRuns.VaultlessUploadIsReachable`).
* `apps/cli/src/application/credential-cipher.ts:52` binds every credential to the active organization, read once. When the
  session is switched before the upload is sent, the row is stored in the new organization under that one's own current key,
  passes every check, and is bound to the other one, where it does not open (`VaultRuns.SwitchedSealIsReachable`). When it is
  switched after the key was fetched, the row is under the other organization's key with nothing in any keychain
  (`VaultRuns.SwitchedFetchIsReachable`).
* So "every stored credential opens under the current key" is false of the code in three ways: a write that was overtaken,
  another organization's key, and a data key bound to another organization. What holds, for every row of every run, is that it
  opens if and only if its last write was an insert at the current version, with this organization's key and bound to it, or a
  winning rotation that covered it at its version, bound so (`VaultHealth.StoredCredentialOpens`). When rotations work with this
  organization's keys, that is: its sealing command did too and bound it here, and no overtaken write hit it
  (`VaultHealth.OwnRunHealth`). A rotation that does not can open a row again (`VaultRuns.HealingIsReachable`), and nothing else
  can (`VaultHealth.HealedByStrayRotation`). While no step mixes organizations the last condition alone is left
  (`VaultCache.OneOrganizationHealth`).
* `apps/cli/src/application/vault-access.ts:179-185` says clearing the cache after a rotation forces a fresh unlock at the new
  version. Another command of the device that fetched before the commit can store its key after the clearing
  (`VaultRuns.StaleStoreIsReachable`), and so can another organization. `VaultCache.NextKeyIsNewer` is the exact condition.
* `apps/server/src/handlers/org-vault.ts:173-176` says a revoked key never enters the recipient set again. Only the grant looks at
  the mark, one statement before its insert; rotation and bootstrap go by their lists
  (`VaultRuns.RevokedUnlockIsReachable`). `VaultRevocation.RevokedKeyUnlocks` says exactly when a revoked key unlocks the vault.
* `apps/server/src/repositories/org-vault.ts:74-80` and `:354-356` say all writes of a rotation are guarded on the
  vault version and a lost compare-and-swap mutates nothing. The credential updates are guarded on the
  row's own version only (`:372-383`). A loser changes nothing exactly when no row it covers is still at the version it
  started from (`VaultTheorems.LostRotation`); otherwise it moves that row to a later version under a key nobody holds, which
  `VaultRuns.RelabellingIsReachable` reaches.
* `packages/credentials-crypto/src/aead.ts:30-34` says no two part lists encode alike. Parts are turned into
  strings first, so `1` and `"1"` coincide, and a length is written modulo 2^32. `Aad.FramedInjective` is an
  if-and-only-if for segments below 2^32 bytes, and `Aad.LongSegmentCollides` gives two calls with one result beyond.
* `apps/cli/src/lib/fingerprint.ts:71-83` says the diff does not depend on input order. It sorts by source id alone, and a
  file and a contents source can share one (`FingerprintTheorems.FileAndContentsTie`).
  `FingerprintTheorems.OrderIndependentExactly` gives the exact condition on the two inputs.
* `packages/encoding/src/index.ts:14-35` throws a RangeError for malformed base64, but not for all of it: `"A="` passes the check and
  fails inside `atob`. `Encoding.DecodesExactly` tells the two refusals apart for every input; base64url refuses everything with a RangeError.
* `apps/cli/src/lib/android-signing-gradle.ts:8-12` escapes backslashes, quotes and `$`, but not newlines, which end a single-quoted
  Groovy string. `Groovy.ScriptHoldsInputs` is the exact statement.
* `packages/expo-protocol/src/index.ts:50-54` joins two ids with `__`; ids with underscores can collide
  (`PatchKey.UnderscoredIdsCollide`). `PatchKey.PatchKeyCollides` is exact.

## Model

| member | source | states |
|---|---|---|
| Utf8.EncodeInjective | packages/credentials-crypto/src/aead.ts:36 | two well-formed strings with the same UTF-8 bytes are the same string |
| Utf8.EncodesExactly | packages/credentials-crypto/src/aead.ts:36 | a text is encoded to the shortest bytes that hold its characters' bits, 0xxxxxxx, 110xxxxx 10xxxxxx and so on (section 3 of RFC 3629), and no other bytes are its UTF-8 |
| Decimal.ValueOfPrint | packages/credentials-crypto/src/aead.ts:36 | a printed number reads back as itself, so a numeric part determines its number |
| Decimal.PrintIsNumeral | packages/credentials-crypto/src/aead.ts:36 | a number is printed as its decimal numeral, the one text of digits without a leading zero whose places add up to it |
| Decimal.PrintsLastDigit | apps/cli/src/lib/auto-increment.ts:26 | a printed number ends in the digit of its remainder by ten, after the print of its tenth |
| Decimal.ValueIsSum | apps/cli/src/lib/auto-increment.ts:20-26 | a run of digits is read as the sum of its digits, each by its place in the row of ten, times powers of ten |
| Aad.EncodeAad | packages/credentials-crypto/src/aead.ts:35-46 | filling the buffer in place yields the length-prefixed segments one after the other, and nothing else; read back, each part is there as its UTF-8, a natural number as its decimal numeral, behind its length modulo 2^32, most significant byte first |
| Aad.FillSegments | packages/credentials-crypto/src/aead.ts:40-44 | the running offset ends exactly at the size computed beforehand, and every byte up to it has been written |
| Aad.MeasureSegments | packages/credentials-crypto/src/aead.ts:37 | the size computed beforehand is the length of the framing |
| Aad.FramesInjective | packages/credentials-crypto/src/aead.ts:30-46 | a list of segments below 2^32 bytes can be read back off its framing |
| Aad.FramedInjective | packages/credentials-crypto/src/aead.ts:30-46 | two bindings have the same bytes if and only if domains and stringified parts agree |
| Aad.LongSegmentCollides | packages/credentials-crypto/src/aead.ts:41 | a domain of 2^32 null characters and no part has the bytes of the empty domain with 2^30 empty parts, because the length prefix wraps |
| Crypto.BytesInjective | packages/credentials-crypto/src/credential.ts:31-37 | a data-key binding and a credential binding are each determined by their bytes, and never share bytes with one another |
| Crypto.BoundBytes | packages/credentials-crypto/src/credential.ts:31-37 | the bytes of a binding read back as its domain, the organization, the credential and the rest, in that order |
| Crypto.OrgShows | packages/credentials-crypto/src/credential.ts:31-37 | two data-key bindings of one credential and version have the same bytes if and only if they name the same organization, however long the texts |
| Crypto.OpensExactly | packages/credentials-crypto/src/vault.ts:41-60 | a sealed value opens under exactly its own key and binding and gives back its plaintext |
| Crypto.WrapOpensExactly | apps/cli/src/application/vault-access.ts:105-113 | an age wrap of the vault key opens with the identity it was made for and with no other |
| CredentialCipher.SealThenOpen | apps/cli/src/application/credential-cipher.ts:114-233 | with everything the opener supplies left free: unwrap failure and integrity failure occur exactly when they should; metadata disagreement exactly when a key of both records has a concrete server value that is not the sealed one, or an object or array; and success returns exactly the secret's members that are not `undefined` |
| CredentialCipher.SealsUnder | apps/cli/src/application/credential-cipher.ts:114-148 | a seal wraps its data key under the session's vault key at its version, bound to organization, id and version, and encrypts under the data key, bound to organization, id, type and schema version 1 |
| CredentialCipher.ConsistentMeans | apps/cli/src/application/credential-cipher.ts:222-235 | the metadata check passes if and only if no key of both records has a concrete server value that differs from the sealed one or is an object or array |
| CredentialCipher.OpenByKey | apps/cli/src/application/credential-cipher.ts:163-209 | for an envelope sealed for this id and type, for whatever organization, the vault key and the opener's organization decide, and the opener's own vault version plays no part |
| VaultPreserved.StepKeeps | apps/cli/src/application/vault-rotation.ts:35-93 | every step of every command, whatever else is in flight, keeps the invariant; key histories only grow and a stored row changes only by moving to a later version with its ciphertext intact |
| VaultPreserved.RunKeeps | apps/cli/src/application/vault-access.ts:116-191 | the invariant holds after every run of any number of interleaved commands |
| VaultPreserved.CommitKeeps | apps/server/src/repositories/org-vault.ts:348-428 | the rotate batch, won or lost, keeps it |
| VaultPreserved.BatchSettlesKey | apps/server/src/repositories/org-vault.ts:384-410 | a winning rotation's key becomes the key of the next version, a losing rotation's key is one nobody can ever commit |
| VaultPreserved.InsertUploadKeeps | apps/server/src/handlers/apple-push-keys.ts:55-86 | an insert that nothing guards keeps it, whatever rotated since its check and whatever organization its data key is bound to |
| VaultPreserved.RewrapKeeps | apps/cli/src/application/vault-rotation.ts:45-86 | re-wrapping a listing, possibly stale, yields for each row the row's own data key under the new key at the next version, bound to the organization it was bound to, or ends the command |
| VaultCache.HeldKeysExactly | apps/cli/src/application/vault-access.ts:156-191 | in every reachable state a cached key, a key a command works with and a stored wrap hold the true key of their version if and only if they came from this organization; for one that another organization handed out that is what its mark says by definition |
| VaultCache.StepEntry | apps/cli/src/services/vault-cache.ts:112-125 | what every step leaves in a device's keychain entry |
| VaultCache.StartsWithTrueKey | apps/cli/src/services/vault-cache.ts:112-125 | after any run, a command that uses the keychain starts with what the run last left in the entry, which is the true key of its version if and only if it came from this organization |
| VaultHealth.CurrentKeyOpens | apps/cli/src/application/credential-cipher.ts:163-209 | the current key opens a stored row if and only if the row is at the current version, under the current key and bound to this organization |
| VaultHealth.StepHealth | apps/server/src/handlers/org-vault.ts:43-68 | what every step does to every row: an insert opens at the current version with this organization's key and bound to it, a winning rotation opens exactly the rows bound so that it covers at the version it leaves, nothing else changes what opens |
| VaultHealth.RunHealth | apps/server/src/application/assert-vault-version.ts:6-33 | over any run a row ends openable if and only if the last of its writes made it so |
| VaultHealth.StoredCredentialOpens | apps/cli/src/application/vault-rotation.ts:35-93 | in every reachable state a holder of the true current key gets exactly what was sealed if and only if the last write of the row made it openable; otherwise the data key does not unwrap |
| VaultContents.OpensWhatWasUploaded | apps/cli/src/application/credential-cipher.ts:114-209 | over every run, what opens under the true current key is, member by member, the secret some upload of that run was begun with, refused only where the server shows other metadata than that upload was given; the answer is there if and only if the row's last write made it openable |
| VaultHealth.OwnRunHealth | apps/server/src/application/assert-vault-version.ts:6-33 | over any run whose rotations work with this organization's keys a stored row ends openable if and only if it was openable or new, its sealing command worked with such a key and for this organization, and no overtaken write hit it |
| VaultHealth.HealedByStrayRotation | apps/cli/src/application/vault-rotation.ts:45-74 | only a rotation that works with another key, and covers the row at its version, opens a row that did not open |
| VaultCache.OneOrganizationHealth | apps/server/src/application/assert-vault-version.ts:6-33 | while no command is begun for another organization and no keychain or command takes a key that is not this organization's, every key in use is true and a stored credential opens if and only if no overtaken write ever hit it |
| VaultHealth.NeverHealedLater | apps/server/src/application/assert-vault-version.ts:9-13 | as long as rotations work with this organization's keys, a stored row the current key does not open is opened by no later one |
| VaultHealth.StrandedByRotationIsLate | apps/server/src/handlers/org-vault.ts:49-68 | a rotation only misses rows first stored after its coverage check passed, whatever ran in between |
| VaultHealth.StrandedInsertWasOvertaken | apps/server/src/application/assert-vault-version.ts:19-31 | an upload with this organization's key and bound to it is only stranded by its insert if a rotation committed between its version check and it |
| VaultTheorems.MeaningPreserved | packages/credentials-crypto/src/credential.ts:31-58 | over any run, whichever recipient of this organization's key opens a row before and whichever opens it after, an answer is the sealed contents both times, and there is one at the end if and only if the row's last write made it openable; the ciphertext is never rewritten |
| VaultTheorems.RotationInstallsRecipients | apps/cli/src/application/vault-rotation.ts:76-90 | after a committed rotation a key unlocks the vault if and only if it is among the requested recipients, and all of them get the one new key at the next version |
| VaultTheorems.LostRotation | apps/server/src/repositories/org-vault.ts:354-410 | a losing rotation leaves vault, wraps and keys alone, and the credentials too if and only if no covered row is still at its starting version; a row it does change ends under a discarded key |
| VaultTheorems.RecoveryAlwaysUnlocks | apps/cli/src/application/vault-bootstrap.ts:36-43 | in every reachable state with a vault some recovery key unlocks the current vault key |
| VaultTheorems.OnlyOwnKeysUnlock | apps/server/src/handlers/org-vault.ts:17-41 | in every reachable state no key of another organization holds a wrap of the vault key |
| VaultTheorems.RotationStops | apps/server/src/application/assert-vault-version.ts:9-13 | while a row that does not open stays stored and the rotations that list it work with this organization's keys and for it, at most one more rotation commits, and that one was under way already |
| VaultTheorems.RewrapGoesOn | apps/cli/src/application/vault-rotation.ts:45-74 | a rotation gets past its listing if and only if every listed row is under the key it works with and bound to the organization it read |
| VaultTheorems.StaleCommandsEnd | apps/cli/src/application/vault-access.ts:116-136 | a grant, an upload or a rotation that reaches its version check with another version ends and changes nothing, also when there are no credentials, except an upload where there is no vault |
| VaultStale.LeftBehindForGood | apps/cli/src/application/vault-access.ts:116-136 | a command that holds a version the vault has left, anywhere up to its first version check, changes no table at any later step of any interleaving |
| VaultStale.RotationOutdates | apps/server/src/repositories/org-vault.ts:348-428 | once a rotation commits, no other command still before its first version check ever writes a table, unless it holds a version that is still to come |
| VaultTheorems.AtMostOneBootstrap | apps/server/src/repositories/org-vault.ts:222-256 | in every run at most one bootstrap commits, none when a vault exists, and a vault never goes away |
| VaultTheorems.LosingBootstrapOnlyRegisters | apps/cli/src/application/vault-bootstrap.ts:49-62 | every step of a bootstrap but a winning commit, before and after a vault exists, adds at most one registered key and changes nothing else |
| VaultCache.UnlockIsCurrent | apps/server/src/handlers/org-vault.ts:215-250 | a full unlock that succeeds yields the version current when the wrap is read, and the true key if and only if the wrap holds one of this organization; when it succeeds is `VaultUnlock.FetchReads` |
| VaultUnlock.FetchReads | apps/server/src/handlers/org-vault.ts:231-247 | an unlock succeeds if and only if its key has a wrap at the version the vault is at, and then gives the key of that wrap and that version |
| VaultUnlock.RotationServes | apps/cli/src/application/vault-rotation.ts:76-90 | after a winning rotation every fetch of a listed recipient gives the new key at the next version, and every other fails |
| VaultUnlock.BootstrapServes | apps/server/src/repositories/org-vault.ts:222-256 | after a winning bootstrap every fetch of its recipients gives the first key at version 1, and every other fails |
| VaultUnlock.BootstrapCompletes | apps/cli/src/application/vault-bootstrap.ts:36-62 | from every reachable state without a vault a bootstrap nobody disturbs makes version 1, which the device's key and the new recovery key unlock and nobody else |
| VaultUnlock.GrantServes | apps/server/src/handlers/org-vault.ts:181-202 | a grant's insert gives its target what it wrapped if it comes at the current version and the target has no wrap, and otherwise changes nobody's unlock |
| VaultUnlock.GrantCompletes | apps/cli/src/application/vault-access.ts:116-136 | from every reachable state a grant nobody disturbs, by a device with a cached key of the current version, leaves its target unlocking to that key and touches nothing else |
| VaultUnlock.DropServes | apps/server/src/repositories/org-vault.ts:450-475 | dropping a device's wraps ends its unlock, revoked or not, and changes nobody else's; exactly the keys named are revoked |
| VaultUnlock.UploadAdmitted | apps/server/src/application/assert-vault-version.ts:19-31 | an upload passes its check if and only if it is at the current version or there is no vault |
| VaultUnlock.GrantAdmitted | apps/server/src/handlers/org-vault.ts:168-193 | a grant passes its check if and only if there is a vault and the target is registered, not revoked, and a device's key or this organization's |
| VaultUnlock.RotateAdmitted | apps/server/src/handlers/org-vault.ts:275-293 | a rotation passes its first check if and only if it is at the current version and its recipients are distinct, registered, devices' or this organization's, with a recovery key among them |
| VaultUnlock.CoverageAdmitted | apps/server/src/handlers/org-vault.ts:49-68 | and its second if and only if its list is exactly the stored credentials |
| VaultUnlock.BootstrapAdmitted | apps/server/src/handlers/org-vault.ts:94-114 | a bootstrap passes its check under the same rules for its recipients |
| VaultUnlock.RowsWritten | apps/server/src/handlers/apple-push-keys.ts:55-86 | an insert adds its row and a deletion takes its row, and every other row stays |
| VaultCache.NextKeyIsNewer | apps/cli/src/application/vault-access.ts:179-191 | after a device's rotation of version v committed and cleared its cache, and any further run, the key its next command starts from or fetches here is past v if and only if the last step that touched the entry since did not leave a key of a version up to v |
| VaultCache.LaterFetch | apps/server/src/handlers/org-vault.ts:231-247 | whatever ran since, a fetch gets a version at least as late as any earlier state's |
| VaultRevocation.StepRevoked | apps/server/src/handlers/org-vault.ts:168-202 | what every step does to a revoked key: a winning rotation or bootstrap decides by its list, a grant that lands on it counts, removing its wraps ends it |
| VaultRevocation.RevokedKeyUnlocks | apps/server/src/handlers/org-vault.ts:173-179 | in every reachable state a revoked key unlocks the vault if and only if the last write of its wrap was one of those |
| VaultRevocation.RevokedGrantWasOvertaken | apps/server/src/handlers/org-vault.ts:173-202 | after any run between a grant's passed check and its insert, the key it is about to give a wrap is revoked if and only if a statement of that run revoked it |
| VaultRaces.EitherOrderStrands | apps/server/src/handlers/org-vault.ts:294-315 | an upload and a rotation that are both past their checks leave the credential unopenable in whichever order they are served |
| VaultRaces.UncoveredIsStranded | apps/server/src/handlers/org-vault.ts:49-68 | a winning rotation makes every stored row it does not cover unopenable |
| VaultRaces.ListingUnwraps | apps/cli/src/application/vault-rotation.ts:45-74 | re-wrapping a fresh listing under the true current key succeeds if and only if every stored row is openable |
| VaultRaces.RotationPrepares | apps/cli/src/application/vault-rotation.ts:35-93 | from every reachable state whose rows are all under the key the device has cached at the current version and bound to the organization it read, a rotation nobody disturbs passes every check with the new key it drew and covers every row |
| VaultRaces.RotationCompletes | apps/cli/src/application/vault-rotation.ts:35-93 | from every reachable state whose rows all open, a rotation nobody disturbs commits: one version on, exactly the listed recipients unlock, every row is still there with its ciphertext and opens |
| VaultRaces.UploadPrepares | apps/server/src/handlers/apple-push-keys.ts:46-86 | an upload nobody disturbs passes its version check with whatever key its device has cached and whatever organization it read, if the vault is at that key's version or there is none |
| VaultRuns.StrandingIsReachable | apps/server/src/handlers/org-vault.ts:43-48 | some run from the empty organization stores a credential the current key does not open |
| VaultRuns.RelabellingIsReachable | apps/server/src/repositories/org-vault.ts:372-383 | some run from the empty organization ends with a row that carries the current version under a key of no version |
| VaultRuns.ForeignSealIsReachable | apps/cli/src/application/vault-access.ts:156-177 | some run stores a credential that the current key does not open although no write of it was overtaken |
| VaultRuns.SwitchedSealIsReachable | apps/cli/src/application/credential-cipher.ts:52-92 | some run stores a credential at the current version under the true current key, with no write overtaken and only this organization's keys in the keychains, that the key does not open: it is bound to another organization |
| VaultRuns.SwitchedFetchIsReachable | apps/server/src/auth/middleware.ts:248 | some run does with empty keychains and whatever organization the command read: its key was fetched elsewhere |
| VaultRuns.HealingIsReachable | apps/cli/src/application/vault-rotation.ts:45-74 | some run opens that credential again, by a rotation that works with the same wrong key |
| VaultRuns.VaultlessUploadIsReachable | apps/server/src/application/assert-vault-version.ts:22-26 | some run stores a credential in an organization without a vault |
| VaultRuns.ForeignWrapIsReachable | apps/cli/src/application/vault-access.ts:116-136 | some run leaves a member with a wrap of another organization's key |
| VaultRuns.StaleStoreIsReachable | apps/cli/src/application/vault-access.ts:179-185 | some run clears the cache after its own rotation and then stores the key of the version before |
| VaultRuns.RevokedUnlockIsReachable | apps/server/src/handlers/org-vault.ts:173-176 | some run ends with a revoked key that unlocks the vault |
| ExtendsChain.ResolveExtendsChain | apps/cli/src/lib/eas-profile-extends.ts:35-86 | on every profile map the loop ends, with the root-first chain, a cycle, a missing profile or too many levels, whichever the walk along `extends` meets first |
| ExtendsChain.OneOutcome | apps/cli/src/lib/eas-profile-extends.ts:54-85 | the four outcomes exclude each other, so each is reported if and only if the walk determines it: a cycle of at most maxDepth names is a cycle, a longer one is too deep |
| ExtendsChain.ParentChain | apps/cli/src/lib/eas-profile-extends.ts:75-76 | a resolved chain without its last profile is the resolved chain of the profile that one extends |
| EasProfiles.ResolveEasBuildProfile | apps/cli/src/lib/eas-config.ts:438-463 | fails exactly as the chain does or when there is no build section; otherwise every scalar, every key of every section and every section itself is the nearest definition on the chain, and `extends` is gone |
| EasProfiles.ResolveEasSubmitProfile | apps/cli/src/lib/eas-submit-config.ts:143-167 | the same for submit profiles |
| EasProfiles.ResolvedBuildIsNearest | apps/cli/src/lib/eas-config.ts:402-436 | the left fold of a chain is nearest-definition-wins, an explicit `false` included; an empty custom section never survives a merge |
| EasProfiles.ResolvedSubmitIsNearest | apps/cli/src/lib/eas-submit-config.ts:134-141 | the same for submit profiles |
| EasProfiles.BuildInheritsResolved | apps/cli/src/lib/eas-config.ts:458-462 | a profile that extends another resolves to itself merged over what the other resolves to on its own |
| EasProfiles.SubmitInheritsResolved | apps/cli/src/lib/eas-submit-config.ts:162-166 | the same for submit profiles |
| EasProfiles.MergesAssociate | apps/cli/src/lib/eas-config.ts:402-436 | both merges are associative, the dropping of empty custom sections included |
| EasProfiles.ReduceSplits | apps/cli/src/lib/eas-config.ts:458-461 | so a chain may be cut anywhere and its halves resolved on their own |
| Encoding.UndigitsDigits | packages/encoding/src/index.ts:30-35 | six-bit groups give back the bytes they were made from, for every length |
| Encoding.DecodesExactly | packages/encoding/src/index.ts:14-35 | for every input, which of the three outcomes `fromBase64` has, and the bytes when it succeeds |
| Encoding.Base64Tolerant | packages/encoding/src/index.ts:14-35 | an encoded text decodes to the same bytes with white space inserted anywhere and any part of its padding dropped |
| Encoding.Base64RoundTrip | packages/encoding/src/index.ts:30-35 | decoding an encoding gives the bytes back (section 4 of RFC 4648) |
| Encoding.UrlText | packages/encoding/src/index.ts:37-38 | the url form contains no `+`, `/` or `=` |
| Encoding.UrlDecodesExactly | packages/encoding/src/index.ts:22-41 | for every input whether `fromBase64Url` succeeds, with which bytes, and that every refusal is a RangeError |
| Encoding.Base64UrlRoundTrip | packages/encoding/src/index.ts:37-41 | decoding a url encoding gives the bytes back (section 5 of RFC 4648) |
| Encoding.OneLetterOneEquals | packages/encoding/src/index.ts:14-41 | one letter and one `=` fails in `atob` for base64 and as a RangeError for base64url |
| Encoding.HexRoundTrip | packages/encoding/src/index.ts:43-51 | decoding a hex encoding gives the bytes back (section 8 of RFC 4648) |
| Encoding.HexBack | packages/encoding/src/index.ts:43-51 | a hex text that decodes re-encodes to itself in lower case |
| EncodingText.Base64Letters | packages/encoding/src/index.ts:30 | each three bytes are written as four letters of six bits each in the order of the standard alphabet, with `=` for those without a bit, and nothing more |
| EncodingText.UrlLetters | packages/encoding/src/index.ts:37-38 | the same bits in the url alphabet, and no padding |
| EncodingText.CompactDrops | packages/encoding/src/index.ts:15 | white space is dropped wherever it stands, and no other character |
| EncodingText.DecodesLetters | packages/encoding/src/index.ts:14-35 | letters and then equals signs decode to the bytes of their bits or are refused, each with its own error, by the two counts alone |
| EncodingText.RefusesOthers | packages/encoding/src/index.ts:10-19 | every other text is a RangeError |
| EncodingText.UrlDecodesLetters | packages/encoding/src/index.ts:22-41 | the same for base64url, whose refusals are all RangeErrors |
| EncodingText.UrlRefusesOthers | packages/encoding/src/index.ts:11-28 | every other text is a RangeError there too |
| EncodingText.HexText | packages/encoding/src/index.ts:43-44 | each byte is written as two lower-case digits, the high one first |
| EncodingText.HexDecodes | packages/encoding/src/index.ts:46-51 | digits of either case decode if and only if they are even in number, to the bytes their pairs denote |
| EncodingText.HexRefuses | packages/encoding/src/index.ts:46-49 | a text with any other character is a RangeError |
| JsText.SpacesAre | packages/dotenv/src/index.ts:6 | what `\s`, `trim` and `.` take for white space and line ends, character by character |
| Groovy.ThreePassesAreOne | apps/cli/src/lib/android-signing-gradle.ts:13-17 | the three replacement passes never touch each other's output and equal one pass over the characters |
| Groovy.EscapesExactly | apps/cli/src/lib/android-signing-gradle.ts:13-17 | backslash, single quote and dollar sign get a backslash in front, and every other character stays |
| Groovy.ReadsBack | apps/cli/src/lib/android-signing-gradle.ts:13-17 | a literal reader gets the value back and stops at exactly the closing quote, if and only if the value has no newline |
| Groovy.FillScans | apps/cli/src/lib/android-signing-gradle.ts:25-52 | a template filled with quoted values scans to its fixed text and exactly those values |
| Groovy.ScriptHoldsInputs | apps/cli/src/lib/android-signing-gradle.ts:25-52 | for every input the rendered script is the same text around exactly five literals, the plugin id and the four inputs as given, if and only if none has a newline |
| Groovy.KeywordsPrecedeInputs | apps/cli/src/lib/android-signing-gradle.ts:39-42 | `storeFile file(`, `storePassword`, `keyAlias` and `keyPassword` each precede their own input |
| Dotenv.ParseConcat | packages/dotenv/src/index.ts:56-60 | texts on both sides of a line break, of either kind, parse on their own |
| Dotenv.LastEntryWins | packages/dotenv/src/index.ts:62-63 | the record form has the value of the last entry of each key and no other keys |
| Dotenv.ContentConcat | packages/dotenv/src/index.ts:56-63 | in the record form later lines override earlier ones key by key |
| Dotenv.EntriesAreBare | packages/dotenv/src/index.ts:33-54 | whatever the text, every key that comes out is non-empty, trimmed, and free of `=` and line feeds |
| Dotenv.QuotedRoundTrip | packages/dotenv/src/index.ts:8-54 | a single-quoted value without line feeds parses back exactly, with or without `export`, if and only if the key is one a line can define |
| Dotenv.PassesUnescape | packages/dotenv/src/index.ts:14-19 | the three replacements of a double-quoted value equal one pass, because none of them makes a new escape |
| Dotenv.DoubleQuoted | packages/dotenv/src/index.ts:8-25 | a double-quoted value has its escapes undone and comes back as written if and only if it has none |
| Dotenv.Unquoted | packages/dotenv/src/index.ts:22-28 | an unquoted value comes back as written, with and without a comment after it, if and only if no comment starts within it |
| Dotenv.CommentIs | packages/dotenv/src/index.ts:6 | a comment is white space, a `#` and no line break after it |
| Dotenv.HashStays | packages/dotenv/src/index.ts:22-28 | an unquoted value in which no `#` comes after white space comes back whole |
| Dotenv.UnescapesTo | packages/dotenv/src/index.ts:14-19 | the three escapes stand for line feed, carriage return and tab |
| Dotenv.UnescapesElse | packages/dotenv/src/index.ts:14-19 | every other character of a double-quoted value stands for itself |
| Dotenv.UnclosedQuote | packages/dotenv/src/index.ts:8-13 | a value that opens a quote it does not close is taken as written, and a quote alone is empty |
| Dotenv.DefinesNothing | packages/dotenv/src/index.ts:33-41 | blank lines, comment lines and lines without an equals sign define nothing |
| StableSort.SortSorted | apps/cli/src/lib/fingerprint.ts:127 | sorting orders by the comparator and keeps an order already there among ties |
| StableSort.SortStable | apps/cli/src/lib/fingerprint.ts:127 | tied elements keep their order |
| StableSort.OneSortedOrder | apps/cli/src/lib/fingerprint.ts:127 | without ties a collection has one sorted order |
| Fingerprint.KeyedMeans | apps/cli/src/lib/fingerprint.ts:88-89 | the map of a source list answers every key with the last source of that key |
| Fingerprint.PushItems | apps/cli/src/lib/fingerprint.ts:91-125 | the two loops push the items of the old list's sources and then of the new list's, in insertion order |
| Fingerprint.DiffFingerprintSources | apps/cli/src/lib/fingerprint.ts:84-128 | the result is the changes of all keys, each once, sorted by source id; what those are in the sources' own values is `FingerprintTheorems.DiffReports` |
| Fingerprint.UnsortedIsDiff | apps/cli/src/lib/fingerprint.ts:91-125 | an item is pushed if and only if it is the change of its key |
| FingerprintTheorems.Reconstructs | apps/cli/src/lib/fingerprint.ts:71-83 | applied in any order the diff turns the old hashes into the new ones, and a key has an item if and only if its hash or its presence changed |
| FingerprintTheorems.DiffReports | apps/cli/src/lib/fingerprint.ts:61-128 | with colon-free kinds, which items the diff has, in the sources' own values: a source goes by override, path, id or kind in that order, contents by id or kind; sources of one name are the same if of one kind or a file and a directory; the last of a name counts; and each item has the op, name, kind, reasons and hashes of its sources |
| FingerprintTheorems.LoneSource | apps/cli/src/lib/fingerprint.ts:61-64 | a source on one side only is the one item, under its name |
| FingerprintTheorems.TwoSources | apps/cli/src/lib/fingerprint.ts:91-125 | one source on each side gives nothing or one modified item if they are the same, and a removed and an added one otherwise |
| FingerprintTheorems.SwapMirrors | apps/cli/src/lib/fingerprint.ts:71-83 | swapping the arguments swaps added with removed and the two hashes, and with colon-free kinds keeps the source ids |
| FingerprintTheorems.SameItems | apps/cli/src/lib/fingerprint.ts:71-83 | reordered inputs with distinct keys give the same items |
| FingerprintTheorems.OrderIndependentExactly | apps/cli/src/lib/fingerprint.ts:82-128 | the sequence is the same for every order of the inputs if and only if the comparator ties no two changed keys that are both in the old list or both new |
| FingerprintTheorems.FileAndContentsTie | apps/cli/src/lib/fingerprint.ts:61-69 | a removed file and a removed contents source of one name come out in input order |
| EnvOverlay.ProcessEnv.ApplyEnvOverlay | apps/cli/src/lib/expo-config.ts:130-137 | the environment becomes the old one overridden by the overlay, and the snapshot is what its keys were before |
| EnvOverlay.ProcessEnv.RestoreEnv | apps/cli/src/lib/expo-config.ts:139-148 | every key of the snapshot is as it was, absent ones absent, and nothing else changes |
| EnvOverlay.ProcessEnv.ReadExpoConfig | apps/cli/src/lib/expo-config.ts:158-180 | around an evaluation that may write variables itself, the old environment is back if and only if it left every variable outside the overlay alone |
| EnvOverlay.BracketRestores | apps/cli/src/lib/expo-config.ts:130-148 | during the bracket each variable is the overlay's or the old one, after it all are the old ones |
| EnvOverlay.NestRestores | apps/cli/src/lib/expo-config.ts:158-180 | every well-nested sequence of brackets restores the start |
| EnvOverlay.CrossedRestores | apps/cli/src/lib/expo-config.ts:158-180 | two brackets that cross restore the start if and only if every variable they share already had the first overlay's value |
| DrainPages.LoopDrains | apps/cli/src/lib/drain-cursor.ts:19-32 | against any server at most a hundred fetches, of consecutive pages, whose items are the result; the drain stops at the first last page or the first failure |
| DrainPages.DrainStops | apps/cli/src/lib/drain-cursor.ts:16-34 | a drain takes at least one and at most a hundred pages, every page before its last one was served, and it fails exactly with the error of its last page |
| DrainPages.DrainsList | apps/cli/src/lib/drain-cursor.ts:16-34 | a fixed list drains to its first min(n, 100 * limit) items in exactly min(100, max(1, pages)) fetches |
| AutoIncrement.ParseFormat | apps/cli/src/lib/auto-increment.ts:42 | the pattern matches exactly the texts made of three numbers and a suffix, and captures those parts |
| AutoIncrement.BumpSucceedsExactly | apps/cli/src/lib/auto-increment.ts:44-63 | a bump succeeds exactly on such texts, is refused as no version on all others, and changes nothing but the patch |
| AutoIncrement.BumpAdds | apps/cli/src/lib/auto-increment.ts:44-63 | n bumps add n to the patch and keep major, minor and suffix byte for byte |
| AutoIncrement.BumpCounts | apps/cli/src/lib/auto-increment.ts:42-63 | in digits: the patch becomes the numeral of the next number and the rest stays |
| AutoIncrement.BumpsLastDigit | apps/cli/src/lib/auto-increment.ts:60-62 | a patch that does not end in 9 changes in its last digit only, to the next one |
| AutoIncrement.BumpBuildAdds | apps/cli/src/lib/auto-increment.ts:15-27 | n bumps of a build number add n to the integer the text starts with |
| AutoIncrement.BuildCounts | apps/cli/src/lib/auto-increment.ts:15-27 | in digits: what a build number with white space, a sign, digits and more becomes |
| AutoIncrement.FirstBuild | apps/cli/src/lib/auto-increment.ts:19 | without a build number the first one is 1 |
| AutoIncrement.ParseIntReads | apps/cli/src/lib/auto-increment.ts:20-25 | leading white space and whatever follows the digits are ignored, the sign counts, and a sign without digits is refused |
| PatchKey.JoinCollides | packages/expo-protocol/src/index.ts:50-54 | two id pairs join to one text if and only if they are equal or one is the other read off at a later `__` |
| PatchKey.PatchKeyCollides | packages/expo-protocol/src/index.ts:50-86 | a key valid for one tuple is valid for another if and only if project, runtime version and platform agree and the lowercased ids are equal or collide that way |
| PatchKey.UnderscoredIdsCollide | packages/expo-protocol/src/index.ts:50-54 | two different tuples of valid ids share one key that is valid for both |
| PatchKey.PatchKeyInjective | packages/expo-protocol/src/index.ts:50-86 | with no underscore in the `from` ids a valid key belongs to one tuple, ids compared up to case |
| PatchKey.KeyStaysUnderPatches | packages/expo-protocol/src/index.ts:56-86 | a valid key has exactly five path components, each segment in its own place, none empty and none stepping up |
| PatchKey.AcceptedExactly | packages/expo-protocol/src/index.ts:56-86 | a key is accepted if and only if it is the tuple's own and each of the five segments is non-empty and free of slashes, backslashes, null characters and two dots in a row |

## Left out

- Crypto.OpensExactly: the ciphers are symbolic (equality of key and associated data decides); XChaCha20-Poly1305, age, Argon2id and key randomness are not modelled, and two draws never give the same key.
- CredentialCipher.SealThenOpen: `JSON.stringify` then `JSON.parse` is taken to give the payload back without its `undefined` members; a decrypted payload of another shape, which needs a foreign writer, is not modelled.
- Utf8.EncodeInjective: for well-formed strings only; lone surrogates, which TextEncoder replaces, are not strings of the model.
- VaultCache.UnlockIsCurrent: reads see the latest committed write; D1 sessions start `first-unconstrained` (apps/server/src/cloudflare/context.ts) and may read an older replica, which the model does not capture.
- VaultTheorems.StaleCommandsEnd, VaultHealth.StrandedInsertWasOvertaken, VaultHealth.StrandedByRotationIsLate and VaultCache.LaterFetch rest on fresh reads in the same way: a check against an older replica can pass, and miss rows, when these say it cannot.
- VaultPreserved.StepKeeps: of other organizations only the keys they draw, and what they put into a keychain or a command, are modelled; their own tables are not.
- VaultTheorems.StaleCommandsEnd: about the request's first version check, as `VaultStale` is; what the later, unguarded writes can do is stated by the health theorems and by `LostRotation`.
- A passphrase prompt, the session row and the token handover: a switch of organizations may come between any two requests of a command, and which requests it falls between is free.
- Encoding.DecodesExactly: `atob` is the forgiving-base64 decode of the WHATWG Infra standard, without its buffer-level steps.
- Groovy.ReadsBack: the reader knows Groovy's one-character escapes; Unicode escapes never arise from escaped text and are not read.
- EasProfiles.ResolveEasBuildProfile: starts from parsed profiles; which JSON values the parser keeps (eas-config.ts:113-351) is not modelled, nor are the message texts.
- AutoIncrement.BumpAdds: up to 2^53; beyond it JavaScript addition rounds, and what the rounded sum prints is a parameter of the bumps.
- Aad.FramedInjective: natural numbers are printed in full, while `String` turns to exponent notation at 10^21, which no version reaches; other numbers enter by their printed text.
- FingerprintTheorems.DiffReports: for kinds without a colon, as `file`, `dir` and `contents` are; with one, two different sources can have one key.
- Fingerprint.DiffFingerprintSources: `localeCompare` is any total preorder on strings, and the model takes it as a parameter.
- PatchKey.PatchKeyInjective: `toLowerCase` is a parameter that must not introduce underscores (nor slashes, for `KeyStaysUnderPatches`).
- Vault commands are steps of one machine over values rather than methods of a class, because their interleaving is the subject; a caller's view of a single call is not modelled apart from its steps.
- Permission checks, HTTP transport and its retries, the audit log, blob storage, deletion of users and their keys, and the `rotation_pending` flag that asks for a rotation.
- `currentRecipients` and `findRecipient`: lookups that choose the recipient list; the model quantifies over every list.
- The cache's time limit, which the model replaces by expiry at any moment.
- `bumpVersionCode`, which adds one to a number, and the record building around the bumps.
- JavaScript objects' inherited properties in profile, overlay and metadata lookups: records have own keys only.
- Case-insensitive environment variables on Windows.
- Manifests, policies, patch generation, Apple and Google clients, subprocess calls, the web application.
