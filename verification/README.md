# A verified model of NanoKVM's stateful core

NanoKVM turns a small board into a network KVM. This project models the parts of it whose
correctness depends on order: the exit tunnel's flow control and shutdown, grant edits against live
sessions, the account store, the A/B kernel slots, the bridge transaction with its dead-man, and the
control-mode gate. It also models the parsers, printers and caches where a lost byte matters. It is
written in Dafny 4.11; `dafny verify dfyconfig.toml` checks everything.

## How it is built

Each concurrent protocol is a state machine: `Enabled` says which steps may happen, `Step` what they
do, `Exec` runs a list of them, and every critical section, atomic file operation or channel
operation of the source is one step. An invariant is proved of each step, then of every run, and the
main theorems quantify over all runs, so over all interleavings, crashes and failures. Code that
updates fields or loops is also there as classes and methods, proved against the same functions the
machines step with. Where the code does not do what its comments say, a lemma gives a run or an
input that shows it, and another says when it does.

| module | models |
|---|---|
| `NexitCredit`, `NexitSend` | send windows, `takeBoth`, any number of pumps |
| `NexitReceive` | queued DATA, drains, credit returned to the peer |
| `NexitLifecycle`, `NexitWakeup` | opening, dropping and finishing streams; waits on condition variables |
| `NexitCodec` | frames, and addresses in the types of section 5 of RFC 1928 |
| `Permissions`, `AccountStore`, `AccountRuns`, `AccountEdits`, `AccountService` | grant closure, the account file, its operations and what they mean |
| `Sessions`, `Grants` | the session registry; connections against grant edits |
| `UEnv`, `BootSlot` | the `ab_state` line; kernel install and commit with power cuts |
| `BridgeRestore`, `BridgeSetup` | restoring a snapshot, command by command; what a transaction and a restore make of a device |
| `Deadman`, `BridgeTransaction` | the transaction and its watchdog, over any device whose restores obey stated rules; the bridge, which obeys them |
| `ControlMode` | the activity gate, leases, mode switches and the mode file |
| `EdidTiming`, `Edid`, `EdidMeaning`, `EdidBuffers` | EDID decode and encode, what is accepted, and the flash tool's check |
| `Archive`, `ArchiveTree`, `DnsCache`, `Quoting` | update archives and what they unpack to, the DNS answer cache, shell quoting |
| `Wrappers`, `Bytes`, `Sums` | shared definitions, all three in `Sums.dfy` |

## Assumptions

- The bootloader boots `boot.alt` once when `ab_state` is trial and the counter is zero, counting the
  attempt, and `boot.sd` otherwise. That is what the source's comments say of it.
- Small files are replaced atomically; the replacement can fail before it happens, or report an error
  after it did. The two kernel slots are overwritten in place and are torn until the write ends.
- Only the control-mode manager writes the mode file, and every write changes its size or time.
- A transaction's commands run on a context whose deadline is set before its watchdog's timer, to the
  same window (server/service/bridge/service.go:109-117, server/service/bridge/bridge.go:67-88 and
  720-752). So the context has expired when the watchdog fires, and a link command on an expired
  context changes nothing.
- A password hash is never empty. Clocks are monotone. Passwords, hashes, token signatures and random tokens are values supplied from
  outside.
- A link listing names every link once, with a name the kernel allows.
- In `Edid`, `|` of fields that share no bit is written `+`, and shifts and masks as division and
  remainder.

## Where the source and its promises part

- A peer that repeats OPEN on an unanswered id can leave a stream that shutdown never aborts
  (`NexitLifecycle.RepeatedOpenLeaks`): exactly a stream that a later dial overwrote and that was
  never dropped (`NexitLifecycle.FinishAbortsEveryStream`).
- An edit whose save replaced the file and then failed returns an error, so its handler drops no
  session (`Grants.UnreportedEditLeavesStaleGrants`). After any number of these the last one whose
  drop would have reached a connection decides whether it is stale
  (`Grants.LastUnreportedEditDecides`), and one that none would have reached is current
  (`Grants.UnreachedStaysCurrent`).
- A catalog that implies a grant it does not list loses that grant
  (`Permissions.OpenCatalogLosesGrants`); the shipped catalog does not.
- A power cut inside the commit's copy loses the device, and only there
  (`BootSlot.CutLosesExactlyMidCopy`). A commit after an install in the same boot copies whatever
  `boot.alt` then holds, torn or not (`BootSlot.CommitAfterFailedInstall`).
- Writing and removing the uplink file take no context, so a transaction can still do it after its
  watchdog has restored everything and cleared the marker. The links then agree with the record
  (`Deadman.NeverHalfApplied`) and the file does if and only if no such write landed or it wrote what
  was recorded (`Deadman.FileAgreesExactlyWhen`); a run ends with an uplink file naming a `br0` that
  is gone (`BridgeTransaction.LateUplinkIsReached`).
- A rollback can succeed, be recorded and still not put the capture back: a restore never enslaves
  anything. It puts the links back if and only if the capture had no gadget port of `br0` and `eth0`
  still had its captured master when it began (`BridgeTransaction.RollbackIsExactWhen`). An enable
  from such a capture meets that, a disable that fails after freeing `eth0` does not
  (`BridgeTransaction.EnableRollsBackExactly`, `BridgeTransaction.DisableRollbackIsLossy`).
- A restore leaves `eth0` a port of `br0` when the snapshot has no free `eth0`
  (`BridgeRestore.UncapturedStockStaysEnslaved`), and cannot write back an uplink file that names
  anything but `br0` or `eth0`, which it reports as an error (`BridgeRestore.Device.Restore`).
- A mode switch that reports a failed save may have switched (`ControlMode.FailedSaveMayStillSwitch`).
- A string with a typographic single quote does not survive the PowerShell quoting
  (`Quoting.ApostropheIsLost`); every other string does (`Quoting.PsQuoteReads`).
- An address the peer spells as IPv4-mapped IPv6 is not written back as spelled
  (`NexitCodec.AddrDecodeIsExact`).

## Model

| member | source | states |
|---|---|---|
| `NexitCredit.Credit.Take` | nexit/proto.go:196-225 | one pass of the wait loop: closed beats credit, credit beats a cancelled context, and only a grant changes the window |
| `NexitCredit.Credit.Add` | nexit/proto.go:184-194 | positive increments add up; others are ignored |
| `NexitCredit.TakeBoth` | nexit/proto.go:239-253 | a grant spends the same number of bytes, the most both windows allow, from both; a failure leaves both as they were, a caller blocked on the connection holding exactly what it took |
| `NexitCredit.SendBuffer` | nexit/session.go:419-430 | one read is cut, in order, into frames of 1 to 16384 bytes that both windows pay for exactly; the remainder strictly shrinks |
| `NexitSend.StepKeepsInv` | nexit/session.go:413-446 | every step of every pump, WINDOW frame or shutdown keeps available + held + sent = window + increments, for each stream and the connection, and the order of the bytes |
| `NexitSend.EveryRunConserves` | nexit/session.go:413-446 | the same for every interleaving of any number of pumps; DATA frames are of legal size and EOF comes only after every byte read |
| `NexitSend.NeverOverspends` | nexit/proto.go:184-253 | no stream and no connection sends more DATA than its window plus the increments that came; DATA is a prefix of what was read; while the session lives a stopped pump has given everything back |
| `NexitSend.LastFrameTells` | nexit/session.go:431-444 | for every schedule: EOF means that the socket reported end of file and every byte it gave came before, RST that it reported an error; while the session lives, a pump that stopped at the end of its socket has sent the frame for it, except after an error that an abort explains |
| `NexitSend.PumpStopsForReason` | nexit/session.go:413-446 | for every schedule a pump stops only at the end of its socket, or because the stream was closed or cancelled, the connection closed or the session ended |
| `NexitSend.PumpGoesOn` | nexit/session.go:413-446 | a pump with something to do has a step that leaves it less, unless it waits for credit |
| `NexitSend.ClosingUnblocks` | nexit/stream.go:70-82 | after a stream or the connection is closed or the stream is cancelled, a pump that waits on it has a step, and what was closed gives no credit any more |
| `NexitReceive.StreamFlags.Consume` | nexit/stream.go:58-68 | nothing is lost between the counter and the increment |
| `NexitReceive.StreamFlags.EndBoth` | nexit/stream.go:30-42 | in either order, only the side that ends second is told to drop the stream |
| `NexitReceive.Queue.Pop` | nexit/stream.go:111-129 | first in, first out; nothing comes back only from an empty queue |
| `NexitReceive.StepKeepsInv` | nexit/session.go:232-279 | each step of reader, drain and drop keeps every DATA byte the session answers for in exactly one place, those on ids it has given up included |
| `NexitReceive.EveryRunConserves` | nexit/session.go:221-292 | the same for every interleaving, and the order of the frames |
| `NexitReceive.WrittenIsPrefix` | nexit/session.go:449-474 | bytes written to a destination are a prefix, in order, of the DATA received |
| `NexitReceive.HalfCloseComesLast` | nexit/session.go:449-461 | the destination is closed for writing at the peer's end of file, after every byte queued was written; if no frame was rejected that is every byte received |
| `NexitReceive.DrainGoesOn` | nexit/session.go:449-474 | a drain with something queued or in hand has a step that leaves it less, and an aborted one stops once its queue is empty |
| `NexitReceive.ReaderGoesOn` | nexit/session.go:221-292 | the reader always finishes the frame it has in hand |
| `NexitReceive.DrainedLeavesCredit` | nexit/session.go:449-474 | a drained live stream leaves the peer at least one byte, and about half its window, of credit |
| `NexitReceive.CreditReturned` | nexit/session.go:195-279 | over every run: increments never exceed bytes received, the destination gets a prefix, a drained stream has credit, and the connection's missing credit is exactly what is counted, queued, in flight or discarded, of all DATA on ids the session has or had |
| `NexitLifecycle.FinishAbortsEveryStream` | nexit/session.go:134-157 | after shutdown a stream that entered the table is aborted if and only if no later dial overwrote it or it was dropped; a polite peer overwrites none |
| `NexitLifecycle.NoneEntersAfterDone` | nexit/session.go:359-389 | once the session is done no stream enters, whatever happens next |
| `NexitLifecycle.DialsAreDecided` | nexit/session.go:359-389 | a dial is open until it connects or fails, never both; one that failed never enters, one that connected did unless the session is over |
| `NexitLifecycle.ShutdownCanFinish` | nexit/session.go:134-157 | from every reachable state shutdown can be run to its end, with every abort that is owed made |
| `NexitLifecycle.PoliteRunNeverOverwrites` | nexit/session.go:307-389 | a peer that never repeats OPEN on an unanswered id never overwrites a table entry |
| `NexitLifecycle.RepeatedOpenLeaks` | nexit/session.go:359-389 | a concrete run of another peer that leaves a stream not aborted after shutdown |
| `NexitWakeup.NoLostWakeup` | nexit/proto.go:196-235 | for any number of waiters: when the broadcasts are out, a sleeper has a live context, an open window and nothing to take, so none sleeps after abort or close, not even one that checked its context just before |
| `NexitWakeup.SleeperIsNeverStuck` | nexit/stream.go:104-129 | a sleeper that ought to wake has an enabled step ahead that brings it strictly nearer its broadcast |
| `NexitWakeup.OthersDoNotDelay` | nexit/proto.go:196-235 | no other step puts it further off, except a waiter taking the free mutex first |
| `NexitWakeup.SleeperWakes` | nexit/stream.go:104-129 | it can be awake within five steps of the system |
| `NexitWakeup.EverySleeperWakes` | nexit/proto.go:196-235 | under every fair schedule, from any reachable state, a sleeper that ought to wake does: goroutines keep running and the mutex starves none that finds it free again and again |
| `NexitWakeup.CallEnds` | nexit/proto.go:196-225 | a call that finds the mutex free takes what it asks for if there is something, returns at once if the window is closed or the context cancelled, and otherwise sleeps with its callback armed |
| `NexitWakeup.CanSettle` | nexit/proto.go:184-235 | from every state with the mutex free all broadcasts that are due can be made |
| `NexitCodec.FrameRoundTrip` | nexit/proto.go:70-87 | a frame is read back as sent if and only if its payload is within the limit |
| `NexitCodec.FrameDecodeIsExact` | nexit/proto.go:78-87 | a decoded frame determines the message it came from |
| `NexitCodec.FrameOnTheWire` | nexit/proto.go:70-76 | a frame is its type, its id most significant byte first, and its payload |
| `NexitCodec.AddrRoundTrip` | nexit/proto.go:89-129 | an address reads back, IPv4-mapped as IPv4, with the right length whatever follows it |
| `NexitCodec.AddrDecodeIsExact` | nexit/proto.go:109-129 | decoding is exact if and only if the address was not IPv4-mapped |
| `NexitCodec.AddrOnTheWire` | nexit/proto.go:89-107 | an address is its type byte, 1 or 4, its bytes and its port most significant byte first; a mapped one goes as IPv4 |
| `NexitCodec.AddrAcceptedExactlyWhen` | nexit/proto.go:109-129 | an address is read exactly when its type is one of the two and its bytes are all there |
| `Permissions.Granting.Add` | server/authn/permissions.go:257-281 | the recursive marking of one grant, cycles included, adds only what the grant implies and leaves nothing implied missing |
| `Permissions.ComputeClosure` | server/authn/permissions.go:236-255 | the two loops compute the closure function |
| `Permissions.ClosureIsLeastClosed` | server/authn/permissions.go:236-281 | for any implication graph the closure is the least closed superset if and only if nothing implied lies outside catalog and request; a catalog that lists what it implies guarantees it |
| `Permissions.OpenCatalogLosesGrants` | server/authn/permissions.go:236-281 | a catalog that implies an id it does not list, for which the implied grant is lost |
| `Permissions.ShippedCatalogIsWellFormed` | server/authn/permissions.go:88-152 | the shipped catalog lists every grant it implies |
| `Permissions.ClosureIdempotent` | server/authn/permissions.go:236-255 | closing twice is closing once, order included |
| `Permissions.ClosureMonotone` | server/authn/permissions.go:236-255 | more grants never close to fewer |
| `Permissions.ClosureKeepsUnknown` | server/authn/permissions.go:236-255 | ids the build does not know survive, and none is invented |
| `Permissions.ClosureElements` | server/authn/permissions.go:236-255 | the result is duplicate-free and holds exactly the implied ids that are listed or requested |
| `Permissions.NormalizeStoredPermissions` | server/authn/permissions.go:283-306 | the loop computes the normal spelling |
| `Permissions.NormalizeElements` | server/authn/permissions.go:283-306 | it is duplicate-free, uses no old spelling and means exactly what was stored |
| `Permissions.NormalizeIdempotent` | server/authn/permissions.go:283-306 | normalising twice changes nothing |
| `AccountStore.ValidateDatabase` | server/authn/store.go:605-643 | the counting loops accept a user list if and only if names are unique, grants duplicate-free, fields valid, some admin enabled and at most one owner, who is an enabled admin |
| `AccountStore.SyncLegacyAccount` | server/authn/store.go:731-750 | the mirror is the owner, else the first enabled admin |
| `AccountRuns.MirrorIsAdmin` | server/authn/store.go:731-750 | the mirror of a valid list is an enabled admin |
| `AccountRuns.MirrorExactly` | server/authn/store.go:731-750 | it is the owner if there is one, the first enabled admin if not |
| `AccountRuns.PermissionsEqualIsSetEquality` | server/authn/store.go:681-700 | the comparison loop decides set equality of duplicate-free lists |
| `AccountRuns.LoadIsClean` | server/authn/store.go:462-520 | whatever file is accepted, the loaded list is valid and uses no old spelling |
| `AccountRuns.ApplyWritesGood` | server/authn/store.go:223-460 | an operation leaves the file it found or a valid one, whatever the disk did |
| `AccountRuns.EveryFileWrittenIsGood` | server/authn/store.go:223-460 | along any run from any file, every file written has unique names, duplicate-free grants, an enabled admin, at most one owner and a mirror that is an enabled admin |
| `AccountRuns.ApplyEvolves` | server/authn/store.go:234-460 | one operation, seen from any account: records continue, only a non-owner can go, no owner appears |
| `AccountRuns.OwnerIsForever` | server/authn/store.go:287-397 | along any run the device owner stays, stays the same account and stays an enabled admin |
| `AccountRuns.UnknownGrantsSurvive` | server/authn/store.go:309-322 | grants this build does not know survive every run that does not delete the account |
| `AccountRuns.EndingLoginsBumps` | server/authn/store.go:354-460 | a successful revocation, password change or enable/disable changes the token version |
| `AccountRuns.TokensStayRevoked` | server/authn/store.go:223-232 | once a run changed the version, every token issued before stays invalid until the counter has wrapped |
| `AccountEdits.ApplyBecomes` | server/authn/store.go:234-460 | for every operation and every account name: the accounts are as they were or exactly what was asked for, and the latter whenever it goes through and the disk lets it; a create leaves the requested role, hash and grants, enabled and no owner; a patch changes the fields it names and no other, grants it cannot name kept; a password change sets the hash; no other account changes |
| `AccountEdits.SavedExactlyWhen` | server/authn/store.go:234-460 | an edit is saved if and only if the account is or is not there as needed, the patch is well formed and changes something, nobody demotes himself or the owner, and an enabled admin remains |
| `AccountEdits.EditsValidate` | server/authn/store.go:522-526 | past the checks and the edit, the validation before a save refuses nothing |
| `AccountEdits.RefusalsAreTrue` | server/authn/store.go:234-460 | what a refusal says of the accounts is so |
| `AccountEdits.PrecheckSays` | server/authn/store.go:234-262 | the request itself is refused exactly for a bad name, role, list of grants, password length, or for deleting oneself |
| `AccountEdits.AnswersAreTrue` | server/authn/store.go:234-460 | what every answer says of the accounts: no error, they are as asked for or there was nothing to do; a disk error, as before or as asked for; a password the system refused, as before if the rollback could be written; any other error, as before, and it is true |
| `AccountEdits.LoadKeepsAccounts` | server/authn/store.go:462-520 | every account is read as stored, its grants by their meaning, a zero version repaired |
| `AccountEdits.LoadsExactlyWhen` | server/authn/store.go:462-520 | a file is read exactly when it is missing, a whole single user, or a version 1 list that validates |
| `AccountEdits.FirstAccountIsOwners` | server/authn/store.go:462-520 | without an account file, or with a single-user one, there is one account, an enabled admin who owns the device |
| `AccountService.UpdateUser` | server/authn/store.go:287-370 | the edit in place is the specified edit, with the same refusals in the same order |
| `AccountService.Store.SaveLocked` | server/authn/store.go:522-567 | an invalid list is never written, and the file and the answer are as the disk lets them |
| `AccountService.Store.Run` | server/authn/store.go:234-460 | an operation from its first check to its last save leaves exactly the file, and gives exactly the answer, that the results above are about |
| `Sessions.SessionRegistry.Register` | server/middleware/session.go:88-105 | a connection gets a new id and one new entry, and no other entry changes |
| `Sessions.SessionRegistry.Admit` | server/middleware/jwt.go:62-95 | register, look again, withdraw: a withdrawn registration leaves the registry as it was |
| `Sessions.SessionRegistry.Drop` | server/middleware/session.go:121-147 | exactly the user's connections on a listed channel, or all of them without a list, are removed and returned; every other entry stays |
| `Sessions.PermissionsChanged` | server/service/auth/users.go:237-254 | exactly the grants held before or after but not both |
| `Sessions.NeedsAreTheRoutes` | server/middleware/session.go:34-53 | a channel needs exactly the grants its endpoints run under: what the route asks for (server/router/ws.go:11-16, sources.go:18-23, stream.go:14-20, vm.go:57, picoclaw.go:42-46) and what the console socket reads once (server/service/ws/service.go:35-42) |
| `Sessions.ChannelsForPermissions` | server/service/auth/users.go:256-274 | exactly the channels that need some listed grant |
| `Sessions.ChangeReachesChannels` | server/service/auth/users.go:139-172 | a grant that comes or goes drops each channel that needs it |
| `Sessions.ChangeReachesEndpoints` | server/service/auth/users.go:139-172 | so it drops a connection to any endpoint that runs under it |
| `Sessions.OnlyAffectedChannels` | server/service/auth/users.go:227-274 | no channel is dropped without a grant of its own having changed |
| `Sessions.DroppedExactlyWhen` | server/service/auth/users.go:227-274 | for any two states of an account, disabled ones too, exactly the channels are dropped that need a grant it could use before or after but not both |
| `Sessions.RegistryStaysTidy` | server/middleware/session.go:88-147 | whatever is done to the registry, no user keeps an empty map |
| `Grants.StepKeepsInv` | server/middleware/jwt.go:48-102 | each step of any edit or connection leaves every registered connection findable or about to be cancelled, and up to date or about to be dropped |
| `Grants.NoStaleGrants` | server/middleware/jwt.go:48-102 | over every interleaving of edits with connections: once all edits have finished, a served long-lived connection is cancelled, or its login is valid and it holds exactly the current value of every grant its channel needs |
| `Grants.EditExactly` | server/service/auth/users.go:113-222 | what any edit does to a connection: out of reach of its handler's drop a current one stays current and a stale one stale; within reach a current one becomes stale |
| `Grants.LastUnreportedEditDecides` | server/middleware/jwt.go:48-102 | over any run with any number of edits whose saves landed but were not reported: the last of them whose drop would have reached a served connection decides; once the others have finished the connection is current if and only if that edit left it so, and it left a current one stale |
| `Grants.UnreachedStaysCurrent` | server/middleware/jwt.go:48-102 | in such a run a connection that none of them would have reached since it was served is current |
| `Grants.UnreportedEditLeavesStaleGrants` | server/authn/store.go:522-567 | a concrete run in which a save that replaced the file and then failed leaves a stale connection |
| `UEnv.WriterPicksFirst` | server/service/bootslot/bootslot.go:120-132 | the byte search finds the first line that starts with the prefix |
| `UEnv.ReaderReadsFirst` | server/service/bootslot/bootslot.go:91-102 | the line scan reads that same line |
| `UEnv.TrimRightTrims` | server/service/bootslot/bootslot.go:91-102 | NULs and carriage returns at the end of a value, and nothing else, are taken off |
| `UEnv.ReaderAndWriterAgree` | server/service/bootslot/bootslot.go:91-132 | the reader finds a state exactly in the files where the writer finds a line, and reads that line |
| `UEnv.SpliceSucceeds` | server/service/bootslot/bootslot.go:120-144 | for any key without a newline, a write succeeds if and only if that line is ended by one |
| `UEnv.SpliceThenRead` | server/service/bootslot/bootslot.go:91-144 | what is written reads back, and no byte outside the line changes |
| `UEnv.SpliceOverrides` | server/service/bootslot/bootslot.go:120-144 | a second write leaves no trace of the first |
| `UEnv.SetStateRoundTrip` | server/service/bootslot/bootslot.go:148-153 | both through the entry point that refuses other states |
| `UEnv.StatesAccepted` | server/service/bootslot/bootslot.go:148-153 | exactly the two states are taken, by exactly the files whose first such line is ended |
| `UEnv.EnvFile.State` | server/service/bootslot/bootslot.go:91-102 | the loop over lines is the reader above |
| `UEnv.EnvFile.Set` | server/service/bootslot/bootslot.go:120-153 | the file becomes the splice above, or stays as it was on any error |
| `BootSlot.StepKeepsInv` | server/service/application/kernel.go:61-119 | every install, commit, boot and survivable failure step keeps the slots consistent with the policy |
| `BootSlot.AlwaysBoots` | server/service/bootslot/bootslot.go:246-272 | over every survivable run: the bootloader selects a whole kernel; boot.alt is selectable only after it was read back equal, with no attempt made; a committed trial boot has its own kernel in boot.sd |
| `BootSlot.UnconfirmedTrialFallsBack` | server/service/bootslot/bootslot.go:242-272 | the boot after an unconfirmed trial uses boot.sd |
| `BootSlot.TrialIsBooted` | server/service/application/kernel.go:96-119 | after an install whose write lands the next boot is the trial of that kernel, its first attempt |
| `BootSlot.UpgradeSucceeds` | server/service/bootslot/bootslot.go:246-272 | installed, booted and confirmed, the new kernel is in boot.sd, nothing is pending and every later boot is of it |
| `BootSlot.TrialFallsBack` | server/service/bootslot/bootslot.go:242-272 | left unconfirmed, the boot after the trial is of the old kernel |
| `BootSlot.MismatchIsRefused` | server/service/application/kernel.go:96-119 | a kernel that does not read back as written is not armed |
| `BootSlot.CutLosesExactlyMidCopy` | server/service/bootslot/bootslot.go:256-258 | from every reachable state a power cut loses the device if and only if it falls inside the commit's copy |
| `BootSlot.CommitWithoutInstallIsRight` | server/service/bootslot/bootslot.go:246-272 | before any install in the same boot a commit is right |
| `BootSlot.CommitAfterFailedInstall` | server/service/application/kernel.go:61-77 | a concrete run after which the device does not boot |
| `BootSlot.Partition.Install` | server/service/application/kernel.go:96-119 | boot.sd is never touched; success means read back equal and armed with a zero counter; any failure leaves the trial disarmed or armed with a whole kernel |
| `BootSlot.Partition.Confirm` | server/service/bootslot/bootslot.go:246-272 | what each failure point of the commit leaves on disk |
| `Deadman.OneOutcome` | server/service/bridge/bridge.go:564-596 | for every timing of the deadline and every crash: the claim has one holder, exactly one once the transaction has tried; restores never overlap; a transaction leaves at most one outcome; "applied" is written only with the claim, all three gates and the verified device |
| `Deadman.CrashFindsMarker` | server/service/bridge/apply.go:97-116 | from the first mutation to the durable outcome, until the watchdog claims, a crash finds a marker and this transaction's whole snapshot |
| `Deadman.NeverHalfApplied` | server/service/bridge/config.go:388-397 | with no marker on disk, late writes or not: the links are what passed the gates, or after a rollback the capture if and only if the restore did not begin from doomed links; any earlier outcome holds unless its rollback was lossy |
| `Deadman.FileAgreesExactlyWhen` | server/service/bridge/apply.go:425-475 | with no marker on disk the uplink file is what the last outcome stands for if and only if no write landed after the watchdog had restored it, or that write was the same |
| `Deadman.CrashThenRecovery` | server/service/bridge/bridge.go:797-819 | after any such crash, mid-restore included, every recovery whose steps work, through further crashes too, records the rollback, clears the marker, puts the file back and leaves the captured links if and only if they were not doomed at the crash |
| `Deadman.RecoveryCanFinish` | server/service/bridge/bridge.go:797-819 | such a recovery can always be run to its end |
| `Deadman.JoinIsReached` | server/service/bridge/bridge.go:582-596 | a transaction waiting for the watchdog never waits on a stuck one, and each of its steps brings the end nearer |
| `Deadman.LateWriteStays` | server/service/bridge/bridge.go:738-750 | from any state in which the watchdog is through, a late write of the uplink file stays, the transaction ends, and everything else is as the watchdog left it |
| `Deadman.ChangeThenRollBack` | server/service/bridge/apply.go:425-475 | a transaction that changes the links, gives up and restores without error ends with no marker, recorded as rolled back, on what the restore left |
| `Deadman.ChangeThenCommit` | server/service/bridge/apply.go:393-423 | a transaction whose gates pass in time ends with no marker, its outcome recorded as applied in the direction asked for with what the gates said, on what it built |
| `Deadman.RecordsWhatWasAsked` | server/service/bridge/apply.go:393-423 | over every run: an applied outcome, about to be written or written, is for the direction the last transaction asked for and carries its gates; an outcome written since then is the one on disk |
| `Deadman.EveryRunKeepsInv` | server/service/bridge/apply.go:393-475 | the invariant of claim, context, marker, gates, records, links and file over every run |
| `Deadman.Flags.Take` | server/service/bridge/bridge.go:579-580 | the compare-and-swap succeeds for the first caller only |
| `Deadman.Flags.Race` | server/service/bridge/bridge.go:584-596 | deadline and transaction in either order: exactly one owns the outcome |
| `BridgeSetup.CleanRestoreGives` | server/service/bridge/snapshot.go:257-345 | a restore without error, on any device, leaves exactly the stated masters and the captured uplink file |
| `BridgeSetup.RestoreIsExactWhen` | server/service/bridge/snapshot.go:296-326 | from whatever a transaction can reach, that is the capture if and only if it has no gadget port of br0 and eth0 still has its captured master |
| `BridgeSetup.CaptureWithoutBridgeIsRestored` | server/service/bridge/snapshot.go:296-326 | a capture without br0 and with eth0 free is always put back |
| `BridgeSetup.AnyRestoreStaysReached` | server/service/bridge/snapshot.go:242-256 | wherever a restore stops and whatever commands fail, the device is one the transaction can reach, and as restorable as before |
| `BridgeTransaction.BridgeIsLawful` | server/service/bridge/apply.go:121-331 | the armed steps of enable and disable and the restore obey the rules the protocol is proved over |
| `BridgeTransaction.RollbackIsExactWhen` | server/service/bridge/apply.go:425-475 | over every run: after a rollback the links are the captured ones if and only if the capture had no gadget port of br0 and eth0 had its captured master when the restore began; the uplink file is the captured one if and only if no other late write landed |
| `BridgeTransaction.EnableRollsBackExactly` | server/service/bridge/apply.go:121-237 | over every run: an enable from a capture without gadget ports, eth0 free or under br0, is never doomed, so its rollback leaves exactly the captured links |
| `BridgeTransaction.EnableSurvivesCrash` | server/service/bridge/bridge.go:797-819 | a crash while such an enable is armed ends, after any recovery that works, in exactly the capture |
| `BridgeTransaction.EnableCommits` | server/service/bridge/apply.go:121-237 | an enable that goes through leaves br0 with eth0 under it, other links as they were, and an uplink file saying so |
| `BridgeTransaction.DisableCommits` | server/service/bridge/apply.go:241-331 | a disable that goes through leaves eth0 on its own and no uplink file |
| `BridgeTransaction.DisableRollbackIsLossy` | server/service/bridge/apply.go:241-331 | a run in which a disable fails after freeing eth0, rolls back without error, clears the marker, and leaves eth0 outside br0 |
| `BridgeTransaction.LateUplinkIsReached` | server/service/bridge/bridge.go:738-750 | a run of an enable that ends with the captured links, no marker, "rolled back" on record and an uplink file naming br0 |
| `BridgeRestore.ParseIsExact` | server/service/bridge/config.go:136-140 | sorting a name into its kind loses nothing, and the safe names are those of the kernel pattern |
| `BridgeRestore.PatternsAre` | server/service/bridge/config.go:136-140 | the two name patterns, in ASCII |
| `BridgeRestore.ReleasableElements` | server/service/bridge/snapshot.go:364-392 | exactly the captured free gadgets, the gadgets br0 holds now and a captured free eth0, each once |
| `BridgeRestore.ComputeReleasable` | server/service/bridge/snapshot.go:364-392 | the loops compute that list |
| `BridgeRestore.CommandsAreNeeded` | server/service/bridge/snapshot.go:296-326 | exactly the releases, ups and teardown that a listed device needs; without a listing, for whatever the capture knows |
| `BridgeRestore.Device.Restore` | server/service/bridge/snapshot.go:257-345 | the commands depend only on the snapshot and the listing, whatever fails; the result is clean if and only if nothing failed; the uplink file is written, removed or left as specified |
| `BridgeRestore.PortsAreReleasedFirst` | server/service/bridge/snapshot.go:296-326 | every port is off br0 before it is deleted if and only if each is usbN or a captured free eth0, even under names the snapshot never saw |
| `BridgeRestore.RestoreRemovesBridge` | server/service/bridge/snapshot.go:313-326 | without br0 in the snapshot there is no br0 and no port of it afterwards, and other links are untouched |
| `BridgeRestore.BlindRestoreGives` | server/service/bridge/snapshot.go:272-326 | with the links unknown every captured free port that is there is freed and brought up, and br0 goes unless it was captured |
| `BridgeRestore.SecondRestoreIsQuiet` | server/service/bridge/snapshot.go:272-326 | a second restore, from whatever the first left, releases and deletes nothing |
| `BridgeRestore.TeardownComesLast` | server/service/bridge/snapshot.go:296-326 | releases come first and name only usbN and eth0, the teardown comes last and names only br0, also when the live state is unknown |
| `BridgeRestore.UncapturedStockStaysEnslaved` | server/service/bridge/snapshot.go:386-391 | an input for which br0 is deleted with eth0 still its port |
| `ControlMode.Gate.TryShared` | server/service/controlmode/activity.go:22-46 | in, or asleep on the current channel, and in if and only if nobody is exclusive |
| `ControlMode.Gate.SignalLocked` | server/service/controlmode/activity.go:91-97 | whoever sleeps on the current channel is woken |
| `ControlMode.ModeStore.LoadLocked` | server/service/controlmode/manager.go:420-465 | the cached mode is kept or re-read by the same cases, and an error changes nothing |
| `ControlMode.ModeStore.SaveLocked` | server/service/controlmode/manager.go:467-489 | file and cache after a save that landed, failed, or landed and failed |
| `ControlMode.Manager.Lease` | server/service/controlmode/manager.go:121-161 | check, acquire, check again: a refused lease gives its place back; one is granted exactly when both looks go through, outside a transition, and the file has the mode wanted |
| `ControlMode.Manager.Switch` | server/service/controlmode/manager.go:195-244 | which stage ends the switch, what file and cache it leaves, and that gate and transition are released on every way out |
| `ControlMode.LeasesAgree` | server/service/controlmode/manager.go:121-161 | over every run, leases held together are for one mode, the one each wanted, the one in the file and in any reading, and no switch is exclusive |
| `ControlMode.LeaseHoldsModeStable` | server/service/controlmode/manager.go:137-161 | while a lease is held no step of anyone changes the file or the mode read |
| `ControlMode.GrantedExactlyWhen` | server/service/controlmode/manager.go:110-161 | in every reachable state each look lets a lease go on exactly outside a transition, when the file has the mode wanted |
| `ControlMode.ChosenExactlyWhen` | server/service/controlmode/manager.go:250-292 | a switch begins exactly when the mode in the file is the one expected and not yet the target |
| `ControlMode.SwitchReports` | server/service/controlmode/manager.go:195-244 | what a switch reports, and the mode it leaves, is decided by the first stage that failed |
| `ControlMode.SwitchOutcomes` | server/service/controlmode/manager.go:167-337 | over every run: a failed preempt or a timeout leaves the file as it was, a failed cleanup as it was or off, a success at the target |
| `ControlMode.NoWaiterIsLeft` | server/service/controlmode/activity.go:22-97 | over every run: a sleeper on an open channel waits for something still held, whose release signals that channel |
| `ControlMode.SharerGoesOn` | server/service/controlmode/activity.go:22-97 | with nobody exclusive, a lease taker whose channel was closed or who is past the gate has a step that brings its end nearer |
| `ControlMode.SwitchGoesOn` | server/service/controlmode/manager.go:195-244 | a switch under way always has a step that brings its end nearer, whether a lease is out or not |
| `ControlMode.FailedSaveMayStillSwitch` | server/service/controlmode/manager.go:467-475 | a switch that reports a failed save has switched if and only if the write landed before the error |
| `ControlMode.EveryRunKeepsInv` | server/service/controlmode/manager.go:121-337 | the invariant of gate, leases, cache and switch over every run |
| `EdidTiming.TimingRoundTrip` | server/service/edid/decode.go:645-712 | any eighteen bytes read as a detailed timing (section 3.10.2 of VESA E-EDID Release A Rev. 2) and packed again are the same bytes |
| `Edid.CtaRoundTrip` | server/service/edid/decode.go:714-763 | an accepted CTA block (section 7.5 of CTA-861), through its data-block and timing loops, is written back as it was |
| `Edid.BaseRoundTrip` | server/service/edid/decode.go:366-403 | so is the base block |
| `Edid.RoundTrip` | server/service/edid/decode.go:294-436 | every accepted 256 bytes are written back byte for byte, checksums included |
| `Edid.DecodeIsInjective` | server/service/edid/decode.go:294-364 | two accepted blobs that read the same are the same |
| `EdidMeaning.AcceptedExactlyWhen` | server/service/edid/decode.go:294-364 | accepted are exactly the 256 bytes with the header, both sums zero, version 1.3 or later, byte 126 telling whether there is an extension, a CTA block that is well formed, and a timing with a pixel clock |
| `EdidMeaning.CtaAcceptedExactlyWhen` | server/service/edid/decode.go:714-763 | a CTA block is accepted exactly when its revision is 3 or later, data blocks fill their region, and timings are followed by zeros |
| `EdidMeaning.AcceptedIsBoth` | server/service/edid/decode.go:339-357 | what is accepted is its base block and its extension, read as CTA or kept whole |
| `EdidMeaning.BytesAre` | server/service/edid/decode.go:312-328 | where the fields of the base block are; `EdidMeaning.IdentityIs` and `EdidMeaning.RowsOfFieldsAre` for the others |
| `EdidMeaning.DescriptorKinds` | server/service/edid/decode.go:572-598 | a descriptor is a timing unless its first three bytes are zero; then its tag says what it is |
| `Edid.AcceptedIsFlashable` | tools/nanokvm_update_edid/nanokvm_update_edid.c:40-83 | whatever the decoder accepts the flash tool accepts |
| `Edid.EncodedIsFlashable` | server/service/edid/decode.go:366-403 | whatever the encoder writes, from any value, the flash tool accepts |
| `EdidBuffers.CheckEdid` | tools/nanokvm_update_edid/nanokvm_update_edid.c:40-83 | the two eight-bit accumulators decide exactly that |
| `EdidBuffers.ReadCta` | server/service/edid/decode.go:735-763 | the cursor loops compute the parse |
| `EdidBuffers.WriteCta` | server/service/edid/decode.go:405-436 | filling the buffer at a moving offset gives the specified block, and fails if and only if the block does not fit together |
| `EdidBuffers.WriteExtension` | server/service/edid/decode.go:397-401 | the extension block ends in its checksum, whatever it holds |
| `Archive.AcceptedIsBelow` | server/service/application/archive.go:163-178 | an accepted name, once cleaned, is the root or below it and has no parent step |
| `Archive.AcceptedLandsBelow` | server/service/application/archive.go:163-178 | however an accepted name is spelled, from any directory it leads under the root there |
| `Archive.CleanLeadsThere` | server/service/application/archive.go:163-178 | cleaning a path does not change where it leads, from any directory |
| `Archive.NamesAcceptedExactlyWhen` | server/service/application/archive.go:163-178 | accepted are exactly the files and directories whose relative name cleans to something under the root |
| `Archive.ScanStaysBelowLimit` | server/service/application/archive.go:65-77 | the running total never passes 2 GiB, so the unsigned subtraction never wraps; no name is accepted twice |
| `Archive.PassesExactlyWhen` | server/service/application/archive.go:47-77 | the headers of a stream pass exactly when each is valid, no two clean to one name, none has a negative size and the sizes add up to at most 2 GiB; root and version are noted exactly when they are among them |
| `Archive.AcceptsExactlyWhen` | server/service/application/archive.go:23-86 | an archive is accepted exactly when it can be read, its headers pass, and root directory and version file are there |
| `Archive.InspectHeader` | server/service/application/archive.go:47-77 | inspection's own checks of one header, in its order, decide as specified; its overflow check never fires |
| `Archive.Inspect` | server/service/application/archive.go:23-86 | inspection accepts if and only if every header passes and root and version are there |
| `Archive.ExtractHeader` | server/service/application/archive.go:112-158 | extraction's own copy of the checks decides the same, by its type switch, and then makes the entry or fails on the filesystem |
| `Archive.Extract` | server/service/application/archive.go:88-161 | extraction completes if and only if the same headers pass, the filesystem refuses none and no I/O fails |
| `Archive.BuiltIsWellExtracted` | server/service/application/archive.go:125-158 | every file made is under the root, made once, and the bytes written are the bytes counted |
| `ArchiveTree.BuiltIs` | server/service/application/archive.go:125-158 | the files made are those of the file entries with their sizes, the directories those the entries make or need |
| `ArchiveTree.BuiltExactlyWhen` | server/service/application/archive.go:125-158 | of a stream whose headers pass, the filesystem refuses nothing exactly when no file is where another entry needs a directory, in whatever order they come |
| `Archive.InspectThenExtract` | server/service/application/update.go:98-112 | after an accepted inspection extraction refuses nothing, and writes exactly the size inspected |
| `DnsCache.MinTtlIsLeast` | server/service/exit/dns.go:499-508 | the lifetime is the smallest TTL or the cap, whichever is less |
| `DnsCache.PutStoresPositive` | server/service/exit/dns.go:499-530 | an answer is stored exactly when every record has a TTL, from now until the smallest has passed |
| `DnsCache.GetRemovesExpired` | server/service/exit/dns.go:474-497 | a lookup removes the entry exactly when its time has passed, and touches no other |
| `DnsCache.Cache.Get` | server/service/exit/dns.go:474-497 | an answer is served if and only if its entry is live, aged by whole seconds (TTL in section 3.2.1 of RFC 1035); an expired entry goes |
| `DnsCache.Cache.Put` | server/service/exit/dns.go:499-530 | an answer with a zero TTL is not stored; any other is, after making room |
| `DnsCache.Cache.MakeRoom` | server/service/exit/dns.go:512-524 | expired entries go first, live ones only as far as needed |
| `DnsCache.ServedAnswersAreFresh` | server/service/exit/dns.go:470-530 | over every run: at most 1000 entries; an answer served is the latest stored one, before its smallest capped TTL has passed, each TTL its own less whole elapsed seconds and at least one, so the clamp never fires |
| `Quoting.ShQuoteReads` | server/service/exit/commands.go:128-130 | for every string a POSIX shell (section 2.2.2 of the Shell Command Language) reads the quoted form as one word equal to it |
| `Quoting.PsQuoteReads` | server/service/exit/commands.go:132-134 | PowerShell, to which four typographic marks are quotes too, reads the quoted form back if and only if the string has none of them |
| `Quoting.ApostropheIsLost` | server/service/exit/commands.go:132-134 | a string that has one, which is not read back |
| `Quoting.EscapeInDoubleQuotes` | server/service/exit/commands.go:138-149 | the loop computes the escaping |
| `Quoting.EscapedReads` | server/service/exit/commands.go:155-156 | for every string of Unicode characters a shell (section 2.2.3) reads the double-quoted client.sh value back as that string |

## Left out

- Grants.NoStaleGrants: holds when every save that changed the file is reported to its handler; `LastUnreportedEditDecides` says what those that are not reported cost.
- Grants.LastUnreportedEditDecides: no account is created again under a token version that a connection presents; a fresh version is random. `UnreachedStaysCurrent` assumes the same.
- BootSlot.AlwaysBoots: excludes a cut or failure inside the commit's copy and a commit after an install in the same boot; both are decided exactly by other lemmas.
- BootSlot.Partition.Confirm: the marker that stops the trial guard, the free-space refusal and the installed-version file have no effect on the slots and are not part of the state; an error before the copy stands for the first two.
- Deadman.LateWriteStays: one late write; `FileAgreesExactlyWhen` covers any number of them. The restore an operator asks for outside a transaction is not a step.
- BridgeSetup.RestoreIsExactWhen: compares every link's master; the uplink file is put back by a step of its own, and addresses, routes and link state by S30eth and the replay, which are not part of this model.
- BridgeTransaction.EnableRollsBackExactly: a gadget network port re-attached by its own callback while a transaction is armed is not a step.
- BridgeRestore.Device.Restore: the gateway and resolv.conf files, re-addressing through S30eth, the address replay and the firewall rules follow these steps and are not part of the state; links do not change while it runs except by its own commands.
- EdidBuffers.WriteCta: a block that runs past the buffer is refused at once; the source fails a later check, or a slice, for the same input.
- Quoting.EscapedReads: strings are sequences of Unicode characters; a byte string that is not valid UTF-8 is rewritten by the source's loop and is outside the model.
- ControlMode.Manager.Switch: like `Lease`, one caller at a time; the interleavings are those of the state machine.
- Archive.Extract: a directory the filesystem cannot make for another reason than a file in its way counts as an I/O failure.
- The UDP half of nexit, its hello and welcome messages, the WebSocket below it, and overflow of a 64-bit window.
- Delivery of queued DATA before a stream closed on both sides is dropped; the code does not order it.
- Ticks that re-check a session on a timer are one step that may cancel a connection at any time.
- JSON, bcrypt, token signing, path and file modes of the account file; the one-time migration is a save like any other.
- A transaction's thirteenth step, after the disarm; S29bridge's own restore at boot.
- Install and commit at the same time, and the guard that reboots an unconfirmed trial.
- EDID fields that only label the display: names, gamma, refresh rates, audio and video lists.
- Ownership and mode bits of extracted files, and validating the package after extraction.
- Escaping for the Perl and Python clients.
- The web front end, HTTP handlers, audit log, assistant transport and hardware access.
