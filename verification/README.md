# Proofs about vaultgenome-core

Four parts of the system, each modelled as the code runs it and proved over every run.

**The segmented audit log.** A daemon (`sagvd`) appends signed, hash-linked events to a live file,
renames the file into an archive when its count or age says so, and makes the record of that closing the
first event of the next file. A separate program (`acpctl`) verifies the files. `AuditLog` is the
verifier and what a log that verifies looks like; `AuditLogTheorems` is what verification means,
`AuditLogTip` what the log's tip is worth and `AuditReports` what the verifier's report is;
`AuditWriter` is the writer as a step system with a failure or a crash between any two writes;
`AuditDaemon` is the daemon as an object whose every method is a run of those steps, and `AuditRestart`
what its starts refuse, what its failures leave and how a segment ages across a restart; `AuditShipping`
is the operator taking archives away; `RotationBound` is the race between the writers, and
`RotationRefinement` shows that it is the daemon's.

**The attested key release and the failover.** `Terms` and `Attacker` are the symbolic messages and the
network attacker; `KeyRelease*` and `Failover*` are the protocols of `formal/gen.py`, with every choice
its variants make as a configuration. Each query is proved to hold exactly when the protections it rests
on are in place, over all configurations and any number of sessions; the attack runs are built, step by
step, for the other half. In every configuration, from whatever ran before, an honest exchange still
completes, until the stop is raised.

**The console authority and the move between two servers.** `ConsoleSteps` is the listener as a step
system: what each request decides to write, and the writes one at a time, any of which may fail before
or after it took effect or be the last thing the process does, under two independent locks.
`ConsoleSafety` and `ConsoleTheorems` are its invariants; `ConsoleServer` holds the handlers as methods,
each with exactly when it accepts; `ConsoleRoutes` is who reaches which of them; `ConsoleLimits` and
`ConsoleStranded` say exactly where the invariants' conditions end; `ConsoleMove` is the move, with the
network and whatever else the target does as arbitrary inputs; `StopSource` and `StopRace` are where the
stop list is read, by any number of callers, and `ConsoleStop` joins that to the handler that writes the
list.

**Lineage and the envelope codec.** `Lineage` is the check of a directory of sealed bundles and the walk
from one of them, with 64-bit generations that wrap; `Codec` the two length-prefixed formats.

Hashes are ideal (constructors of a datatype: equal only for equal content, never the genesis value),
signatures cannot be forged, encryption is HPKE's base mode with additional data (section 5.1.1 of
RFC 9180) as a constructor, and JSON is a pair of functions of which one inverts the other. Clocks,
random codes, what a file read finds and what the network delivers are parameters.

## What the proofs found

- `AuditWriter.WriterAndVerifierAgree`: the next start repairs every disk a crash leaves
  (`AuditWriter.StartRecovers`), but until then the verifier does not accept three of them: no live file
  (after the rename), a live file of length zero (inside its creation), and one that does not yet say
  where it starts beside archives. It reports the first two as files it cannot read and the third as a
  broken chain. All three are reached (`AuditWriter.RefusalsReached`), and they are the only ones. ADR 0027
  says that closing a segment survives a crash at any step; for the verifier it does not at these.
- `AuditShipping.StartAfterShipping`: when a rotation is cut before its fresh file says where it starts,
  and every archive is then shipped away, the next start begins a new chain at genesis
  (`AuditShipping.StartsOver`). Whenever an archive is left or the live file holds an event, the daemon
  goes on as if nothing had been shipped.
- `ConsoleLimits.RollbackExactly`: when the list in force cannot be read, `handleStop` takes its serial
  as zero, so a validly signed older list is written over it, and the serials no longer increase
  (`ConsoleLimits.SerialsFall` is such a run). While no stop does that they strictly increase
  (`ConsoleTheorems.StopSerials`).
- `ConsoleStranded.JoinStrandsExactly`: a join that writes the operator key and fails before the people
  list is written leaves the key with someone who is not listed, until the same person joins again on a
  fresh invite (`ConsoleStranded.StrandedStays`, `ConsoleStranded.StrandedRecovers`); nobody else is ever
  given it.
- `ConsoleStranded.HalfListedEnds`: when the list is written and the write is reported as failed (a failed
  chmod after the rename), the holder is on the list on disk and not in memory. They end off it, the key
  stranded, if and only if the list is next written, for whomever, before the process is next down; a
  second person's faultless join does it (`ConsoleStranded.HalfListingReached`). Otherwise the next start
  lists them.
- `ConsoleLimits.HolderRemovedExactly`: a removal takes a holder who is on both lists off the one on disk
  when, and only when, it finds the key file unreadable and its write takes effect. On both lists, nothing
  else takes them off (`ConsoleTheorems.HolderStays`).
- `ConsoleLimits.OverwriteExactly`: `handleIncoming` refuses a name that is there only if its Stat succeeds.
  Any other error falls through, and the rename replaces the file. Names keep their content over every run
  in which that does not happen (`ConsoleTheorems.FilesStay`); it can
  (`ConsoleLimits.OverwriteReached`). What replaces a file is on the record all the same
  (`ConsoleTheorems.RecordBeforeEffect`).
- `StopRace.RefusedExactly`: `newOperatorStopSource` reads the file before it takes its lock, so over a
  file that only rises a caller is told of a rollback exactly when another caller loaded a newer list
  after it and came to the lock before it. The console's source never does
  (`StopSource.ConsoleNeverRefuses`).
- `Lineage.SealExtends`: a child of a bundle of generation 2^64-1 wraps to generation 0; both programs
  take it for a genesis and report nothing broken.
- `Codec.VaultRoundTrip`: at four gibibytes and above the decoder compares a truncated length, so some
  blobs the encoder makes are refused as truncated; `Codec.FourGibibytesDoNotDecode` says which. A format
  other than the accepted one is encoded and never decodes (`Codec.OtherFormatsDoNotDecode`).

## Model

| member | source | states |
|---|---|---|
| AuditLog.CheckEvent | cmd/acpctl/audit_log.go:214-237 | one turn of the verifier's walk accepts exactly the event that links, verifies under the one audit key, and records a closing exactly where one belongs |
| AuditLog.WalkSegment | cmd/acpctl/audit_log.go:209-240 | the loop over one file accepts exactly when every event links to the one before and verifies, a closing record is only the first, it is the matching one, and a continued file opens with it |
| AuditLog.CheckSegment | cmd/acpctl/audit_log.go:207-258 | one file is accepted exactly when it also starts where the one before ended and an archive holds the indices of its name |
| AuditLog.CheckStart | cmd/acpctl/audit_log.go:190-206 | the oldest file present starts at genesis or after exactly the tip the operator vouches for |
| AuditLog.VerifyAuditLog | cmd/acpctl/audit_log.go:166-258 | accepts exactly the logs in which every file fits and the oldest is vouched for, with their count, tip and reports, which the AuditReports rows show true; each refusal is of the first file that does not fit, as a read error or as broken, or names the tip nobody vouched for |
| AuditLog.VerifyFiles | cmd/acpctl/audit_log.go:34-54 | without a live file nothing is verified; with one the verdict is that of the pass |
| AuditLog.Load | cmd/acpctl/audit_log.go:87-104 | returns the concatenation of every file's events exactly when every file can be read |
| AuditLog.VerifyEventsInOrder | cmd/acpctl/audit.go:337-354 | the flat verifier accepts exactly the chains from genesis |
| AuditLogTheorems.SegmentedIsFlat | cmd/acpctl/audit_log.go:166-258 | files verify from genesis if and only if their events are one flat chain, cut exactly at its closing records, each file starting where the history before it ends |
| AuditLogTheorems.AcceptedIsFlat | cmd/acpctl/audit_log.go:241-258 | an accepted log passes the flat verifier, and its count and tip are the flat chain's |
| AuditLogTheorems.ReportsPartition | cmd/acpctl/audit_log.go:106-118 | the reports partition the indices: each file holds exactly the events at its reported indices and ends where the next starts, the last at the count |
| AuditLogTheorems.ArchiveIsRecorded | cmd/acpctl/audit_log.go:263-285 | an archive followed by a file with an event has, to the byte, the name, indices, tip, length and hash that event states |
| AuditLogTip.TipBindsHistory | cmd/acpctl/audit.go:290-292 | two logs accepted from genesis with the same tip hold the same events, all but the randomness of their signatures, wherever they are cut |
| AuditLogTip.TipBindsArchives | cmd/acpctl/audit_log.go:263-285 | and the same archives, byte for byte, wherever the closing is on the record |
| AuditLogTip.CutTailVerifies | cmd/acpctl/audit.go:290-292 | a log whose live tail is cut still verifies, with a different tip |
| AuditLogTip.MovedAwayVerifies | cmd/acpctl/audit_log.go:190-206 | without its oldest archives the log verifies under the tip at the cut, with the same count and tip |
| AuditLogTip.VerifiesInParts | cmd/acpctl/audit_log.go:190-258 | the whole verifies if and only if the part moved away does, the rest does under the tip at the cut, and the seam fits |
| AuditReports.ReportTrue | cmd/acpctl/audit_log.go:250-254 | accepted from genesis or after any tip, a file's report holds the indices it says of the log's events, its tip is the hash of the last of them, and it is live, without name, hash and length, exactly when it is the last |
| AuditReports.ReportAsRecorded | cmd/acpctl/audit_log.go:177-184 | an archive is reported with the name, indices, tip, hash and length its closing record gives it |
| AuditReports.ReportedTipContinues | cmd/acpctl/audit_log.go:190-206 | with the oldest archives moved away the rest verifies under exactly one word of the operator's, the tip reported for the last of them, which is also what the verifier then says the log starts after |
| AuditReports.OldestRecordsItsTip | cmd/acpctl/audit_log.go:260-272 | a log that starts past index 0 opens with the record of a closing that names the very tip the operator vouched for |
| AuditWriter.StepKeeps | internal/audit/store/segment.go:342-541 | every write of the daemon, and every failure and crash between two, keeps the disk and what the chain believes of it consistent |
| AuditWriter.WriterAndVerifierAgree | cmd/sagvd/audit_returnpath.go:157-278 | after any run from an empty disk the log verifies from genesis, with the count and tip of what is on record, if and only if there is a live file, it is not of length zero and it does not lack its start beside archives; otherwise it is missing, unreadable or broken, at the live file and not before |
| AuditWriter.RefusalsReached | internal/audit/store/segment.go:376-391 | a crash at the right write leaves each of the disks that do not verify |
| AuditWriter.RecordOnlyGrows | internal/audit/chain/persistent.go:138-164 | no run of appends, rotations, crashes and starts loses or changes an event, and the count is the number written |
| AuditWriter.BootedIs | internal/audit/store/segment.go:403-494 | what a start makes of every disk a crash can leave: a chain to serve, a rotation cut before its fresh file, or one cut before its closing |
| AuditWriter.StartRecovers | cmd/sagvd/audit_returnpath.go:157-196 | from any disk a crash leaves a start ends in service, every closing on the record, nothing lost, and the verifier accepts |
| AuditDaemon.ReturnPathAudit.SegmentDue | cmd/sagvd/audit_returnpath.go:208-226 | due by count, or by the age of a segment holding more than its opening record, and sets the age's start when it is not set |
| AuditDaemon.ReturnPathAudit.RotateIfDue | cmd/sagvd/audit_returnpath.go:228-278 | under every failure the daemon's new state is the run of exactly those steps a rotation takes, when one is due and its name is free; and what the age is measured from after it |
| AuditDaemon.ReturnPathAudit.Rotate | internal/audit/store/segment.go:342-392 | a failure before the move leaves the live file open, one after it leaves the archive and refuses appends |
| AuditDaemon.ReturnPathAudit.Create | internal/audit/store/segment.go:157-196 | the fresh file, half made or removed, under each failure |
| AuditDaemon.ReturnPathAudit.Append | cmd/sagvd/audit_returnpath.go:425-434 | an event reported recorded is on the record for good, one that is not leaves it as it was; with the closing of the segment when it is due, and the exact indices and age after |
| AuditDaemon.ReturnPathAudit.Open | cmd/sagvd/audit_returnpath.go:132-200 | a start's exact steps on every disk; on a disk the daemon left it comes up when nothing fails, and it measures the age from the first event the live file holds, or from the clock when it recorded a closing itself |
| AuditDaemon.ReturnPathAudit.WalkVerify | internal/audit/chain/persistent.go:118-133 | the live file is opened exactly when its events chain and verify |
| AuditDaemon.NameIsFree | internal/audit/store/segment.go:366-369 | in every reachable state the archive a rotation would write does not exist |
| AuditRestart.StartRefusesExactly | internal/audit/store/segment.go:403-494 | on any disk, whoever wrote it, a start refuses exactly a live file that does not chain or stands beside archives without its start, an empty one whose predecessor is not here, and an empty place after an archive that is not what its name says; no event is lost |
| AuditRestart.RotationLeaves | internal/audit/store/segment.go:342-392 | a move that fails cleanly leaves everything as it was and the daemon serving, any other failure leaves it refusing and any crash down; past the move the archive is there, and the record is longer only when the closing's write took effect |
| AuditRestart.AppendKeepsAge | cmd/sagvd/audit_returnpath.go:208-257 | while the clock does not go back the age of a segment is measured from no earlier than its first event, under every failure |
| AuditRestart.AgeSurvivesRestart | cmd/sagvd/audit_returnpath.go:186-219 | the first append after a restart closes the segment if and only if the count is reached or the first event of the live file is old enough, whenever the daemon was restarted |
| AuditShipping.StartAfterShipping | internal/audit/store/segment.go:403-494 | without its k oldest archives a start goes on as with them if and only if an archive is left, the live file holds an event or k is 0; otherwise a stamped live file is refused and anything else begins a new chain |
| AuditShipping.RunsAfterShipping | internal/audit/store/segment.go:342-392 | from then on every run is the run with the archives still there |
| AuditShipping.ShippedVerifies | docs/adr/0027-the-audit-log-in-closed-segments.md:69-74 | what is left verifies under the tip at the cut, with the count and tip of the whole record |
| RotationBound.LiveBounded | cmd/sagvd/audit_returnpath.go:208-251 | with any number of writers, live events beyond the bound are each a writer between its append and its turn to rotate |
| RotationBound.BoundIsReached | cmd/sagvd/audit_returnpath.go:425-434 | no tighter bound holds |
| RotationBound.RotationsPaidFor | cmd/sagvd/audit_returnpath.go:228-278 | under any interleaving the record grows by its appends and its rotations, and a rotation by count is paid for by bound-1 appends |
| RotationBound.AloneExactly | cmd/sagvd/config.go:1658-1660 | by count alone from an empty log m appends leave m + (m-1)/(bound-1) events, 1 + (m-1)%(bound-1) of them live |
| RotationBound.ClosingRotatesNothing | cmd/sagvd/audit_returnpath.go:208-226 | a closing record never makes its own segment due |
| RotationRefinement.RunFollows | cmd/sagvd/audit_returnpath.go:228-278 | under any turns of any writers the daemon serves at exactly the indices of the race |
| RotationRefinement.DaemonBounded | cmd/sagvd/audit_returnpath.go:425-434 | so the bound holds of the daemon's live segment |
| RotationRefinement.DueAgrees | cmd/sagvd/audit_returnpath.go:212-226 | the daemon's test of count and age is the race's |
| RotationRefinement.FirstTurn | cmd/sagvd/audit_returnpath.go:425-430 | the daemon's append performs exactly the steps of a writer's first turn |
| RotationRefinement.SecondTurn | cmd/sagvd/audit_returnpath.go:228-278 | and its rotation, when nothing fails, those of the second |
| Terms.DeductionStaysPublic | formal/gen.py:41-77 | what an attacker computes from public terms, by any constructor or destructor of the models, is public |
| KeyReleaseSafety.StepKeeps | formal/gen.py:101-156 | every step of the source, the destination, the impostor and the attacker keeps the protocol's invariant |
| KeyReleaseTheorems.SecrecyExactly | formal/gen.py:93 | the attacker never derives the genome key if and only if the challenge covers the recipient key and its suite, keys are fresh and the chips' key has not leaked |
| KeyReleaseTheorems.AuthorizationExactly | formal/gen.py:94 | every opening was authorized for its decision if and only if the authority's key has not leaked |
| KeyReleaseTheorems.RecipientExactly | formal/gen.py:95 | injectively, each authorization has its own key generation, if and only if the challenge covers the key and the chips' key has not leaked |
| KeyReleaseTheorems.SingleOpeningExactly | formal/gen.py:96 | injectively, each opening has its own release, if and only if keys are fresh and the authority's key has not leaked |
| KeyReleaseTheorems.StopExactly | formal/gen.py:97 | nothing is authorized once the stop is on the record if and only if an older list is refused |
| KeyReleaseTheorems.ReceiptExactly | formal/gen.py:98 | injectively, each confirmation has its own restore, if and only if the receipt names the decision and the chips' key has not leaked |
| KeyReleaseQueries.UnlistedChipNeverAuthorized | formal/gen.py:99 | the unlisted chip is never authorized, in any configuration |
| KeyReleaseTheorems.RecordedTable | formal/README.md:52-61 | the eight recorded rows, all seven queries each |
| KeyReleaseAttacks.StealByWeakSuite | formal/gen.py:180-183 | the run that takes the key when the suite is not in the challenge |
| KeyReleaseAttacks.AuthorizeAfterStop | formal/gen.py:185-187 | the run that is authorized after the stop under the old list |
| KeyReleaseAttacks.ConfirmWithOldReceipt | formal/gen.py:188-191 | the run that confirms a decision by an earlier restore's receipt |
| KeyReleaseAttacks.ExchangeCompletes | formal/gen.py:101-153 | in every configuration and whatever ran before, until the stop is raised a next release can be asked for, answered, authorized, opened, restored and confirmed |
| KeyReleaseAttacks.EarlySessionsStay | formal/gen.py:155-156 | once the stop is raised no session begun before it goes any further |
| FailoverSafety.StepKeeps | formal/gen.py:500-576 | every step of the operator, the sentinel, the executor, the standby, the two chips and the attacker keeps the failover's invariant |
| FailoverTheorems.SecrecyExactly | formal/gen.py:492 | the genome key stays secret if and only if the chips' key has not leaked and no report the attacker can forge names the standby |
| FailoverTheorems.AlwaysHold | formal/gen.py:493-498 | every decision is under an issued policy, every opening follows a decision, nothing is released after the stop, in every configuration; and in every configuration the standby can open the key |
| FailoverTheorems.FailoverCompletes | formal/gen.py:500-576 | in every configuration and whatever ran before, while the stop is not raised and the policy, the generation and the report are out, an executor can decide, release to a standby the policy names, and it open the genome key |
| FailoverTheorems.StopEndsReleases | formal/gen.py:498 | the stop can be raised whatever ran before, and from then on nothing is released, whatever runs after |
| FailoverTheorems.EarlySessionsStay | formal/gen.py:585 | once the stop is raised no failover begun before it goes any further |
| FailoverTheorems.ReleasesNamedExactly | formal/gen.py:494 | every release goes to a measurement the issued policy names, if and only if the executor does not take it from a forgeable report |
| FailoverTheorems.SentinelExactly | formal/gen.py:495-496 | triggers and generations are the sentinel's own if and only if the attacker cannot forge them |
| FailoverTheorems.RecordedTable | formal/README.md:170-179 | the six recorded rows |
| ConsoleSafety.StepKeeps | cmd/sagvd/console_api.go:331-758 | every write of every handler, each failure of it, and every interleaving of the two locks keeps the console's invariant |
| ConsoleTheorems.RecordBeforeEffect | cmd/sagvd/console_api.go:45-52 | at every moment whoever is listed has a join record with that key and role, every stop list written one with its serial and hash, every invite the operator did not place one of its name and role, whoever was given the operator key one that says so; no file vanishes, and every file has the content it had or one whose name and hash are on record |
| ConsoleTheorems.JournalOnlyGrows | cmd/sagvd/console_api.go:382-388 | no record is ever lost or changed |
| ConsoleTheorems.FilesStay | cmd/sagvd/console_move.go:391-396 | from any state the invariant holds of and no request under way would change a file, over any run in which no request takes a file in over a name it could not stat, no name already here changes content |
| ConsoleLimits.OverwriteExactly | cmd/sagvd/console_move.go:391-427 | a file already here changes content if and only if a request that passes every other test could not stat its name, brings other content and its write takes effect |
| ConsoleLimits.OverwriteReached | cmd/sagvd/console_move.go:391-427 | a run from an empty list that takes a file in and then replaces it |
| ConsoleTheorems.PeopleAndInvites | cmd/sagvd/console_api.go:345-411 | keys stay pairwise distinct, whoever is listed was admitted on a code, and no two admissions share one |
| ConsoleTheorems.LeavesOnRecord | cmd/sagvd/console_api.go:743-757 | while the server is up nobody leaves the list it admits by without a record of their removal, with their name, role and key |
| ConsoleTheorems.PeersExpire | cmd/sagvd/console_api.go:376-380 | on every run the places that run out are exactly those of other servers |
| ConsoleTheorems.KeyGivenOnce | cmd/sagvd/console_api.go:371-402 | an operator key that is there is never written again |
| ConsoleTheorems.HolderStays | cmd/sagvd/console_api.go:729-734 | once listed the holder stays, over failures and restarts, while removals can read the key file |
| ConsoleLimits.HolderRemovedExactly | cmd/sagvd/console_api.go:729-756 | a removal of a holder on both lists takes them off the one on disk if and only if the key file could not be read and the write takes effect |
| ConsoleLimits.RemovalReached | cmd/sagvd/console_api.go:729-756 | a run from an empty list that lists the holder and then removes them |
| ConsoleTheorems.StopSerials | cmd/sagvd/console_api.go:633-675 | while no stop is handled over an unread newer list the serials written strictly increase |
| ConsoleLimits.StopTakenExactly | cmd/sagvd/console_api.go:636-675 | a list is taken if and only if its holder signed it and it is newer than every list ever written, or the one in force cannot be read; then it is in force, recorded as setting, readying or lifting the stop, and nothing else has changed |
| ConsoleLimits.StopAndLift | cmd/sagvd/console_api.go:653-674 | a stop that is set is lifted by the holder's next list, both on record, whatever the server has written before |
| ConsoleLimits.RollbackExactly | cmd/sagvd/console_api.go:648-675 | a list no newer than the one in force is written over it, and the serials never increase again, if and only if that one could not be read and the write takes effect |
| ConsoleLimits.SerialsFall | cmd/sagvd/console_api.go:648-675 | a run from an empty list after which the serials do not increase |
| ConsoleServers.ConsoleServer.Lookup | cmd/sagvd/console_api.go:280-294 | finds the person with that key exactly when one is listed whose place has not run out |
| ConsoleServers.ConsoleServer.Admit | cmd/sagvd/console_api.go:297-315 | admits exactly a listed key in its time with at least the role |
| ConsoleServers.ConsoleServer.HandleJoin | cmd/sagvd/console_api.go:331-412 | the writes of a join in their order under every failure; accepted exactly when the caller is listed already or redeems an invite in its time and nothing fails; then they are listed as the invite says, it is gone, the join is on record, and they hold the operator key exactly when they are an owner and nobody did; an expired invite is removed |
| ConsoleServers.ConsoleServer.HandleStop | cmd/sagvd/console_api.go:627-679 | the writes of a stop under every failure; accepted exactly when the list is the holder's, newer than what was read, and nothing fails; then it is on disk after one record that names its serial, hash and what it does |
| ConsoleServers.ConsoleServer.HandleInvite | cmd/sagvd/console_api.go:682-720 | the record of the invite's name and role, then the invite under its code; accepted exactly when both writes happen |
| ConsoleServers.ConsoleServer.HandleRemove | cmd/sagvd/console_api.go:724-758 | refused exactly for nobody listed or the holder as read; the record of the person, then the list of everybody else, in memory and on disk |
| ConsoleServers.ConsoleServer.HandleIncoming | cmd/sagvd/console_move.go:363-431 | taken exactly from another server or an owner, under a valid name that was free if it could be stated, whole and with the stated hash; the record, then the file, and nothing else |
| ConsoleServers.HandlerIsRun | cmd/sagvd/console_api.go:331-758 | what a handler does under the people lock is a run of the steps |
| ConsoleServers.IncomingIsRun | cmd/sagvd/console_move.go:363-431 | what it does under the move lock is a run of the steps |
| ConsoleRoutes.RolesNest | internal/console/console.go:77-89 | the four roles are one order: a role allows exactly what every lesser one does |
| ConsoleRoutes.Serve | cmd/sagvd/console_api.go:231-240 | a request is accepted exactly when its caller is listed in their time with the role for it, the handler grants it and nothing fails; a caller who is not entitled changes nothing, and every record a request leaves names the person whose key made it |
| ConsoleStranded.JoinLeavesOutExactly | cmd/sagvd/console_api.go:390-409 | a join that gives the key leaves its holder off the list in memory if and only if the key is written and the handler does not learn that the list was |
| ConsoleStranded.JoinStrandsExactly | cmd/sagvd/console_api.go:390-409 | with no key file before, a join leaves the key with somebody on neither list if and only if it gives the key, that write takes effect, the list's does not, and the list on disk did not name them |
| ConsoleStranded.JoinHalfListsExactly | cmd/sagvd/console_api.go:209-217 | and with somebody on the list on disk alone if and only if the list's write is reported as failed and took effect, or a failure came before it and the list named them |
| ConsoleStranded.HalfListedEnds | cmd/sagvd/console_api.go:422-428 | while they do not join again and no removal is blind, such a holder ends stranded if and only if the list is written before the process is next down; otherwise the next start lists them |
| ConsoleStranded.HalfListingReached | cmd/sagvd/console_api.go:209-217 | a run from an empty list to such a holder, and on, through a second person's faultless join, to the key stranded |
| ConsoleStranded.StrandedStays | cmd/sagvd/console_api.go:371-376 | and it stays so over every run in which they do not join again |
| ConsoleStranded.StrandedRecovers | cmd/sagvd/console_api.go:331-412 | when they do, on a fresh invite, the holder is listed |
| ConsoleStranded.StrandingReached | cmd/sagvd/console_api.go:390-408 | a run from an empty list that strands the key |
| ConsoleMove.ParseMoveOrder | internal/console/move.go:64-141 | an order is accepted exactly when it is well formed, the holder's, for this listener and in its time |
| ConsoleMove.EnvelopeFor | cmd/sagvd/console_move.go:216-248 | makes an envelope exactly when the model's own key is here, by the key file if it can be stated or else by own envelope, and it holds that key for the target's escrow key |
| ConsoleMove.OpenExactly | cmd/sagvd/console_api.go:477-500 | orders are carried out if and only if the newest list ever written can be read and is no stop |
| ConsoleMove.Put | cmd/sagvd/console_move.go:333-357 | handed over exactly when the answer comes back and the target, at its turn, knows the sender as another server or an owner, has the name free and received the body as it was sent; then the file is there byte for byte, on record, and nothing else has changed |
| ConsoleMove.MovingServer.JoinTarget | cmd/sagvd/console_move.go:132-135 | succeeds exactly when the answer comes back and the target, at its turn, knows the source already or redeems the order's code; then the source is on its list |
| ConsoleMove.MovingServer.Prepare | cmd/sagvd/console_move.go:116-167 | goes on to the release exactly when the model and its key are here, the order names another server that is reached, that server lets this one in, and its chip proved to the order's pin, over this challenge and the pinned certificate, that it is not stopped, lacks the model and has an escrow key |
| ConsoleMove.MovingServer.SendBoth | cmd/sagvd/console_move.go:178-199 | both files are on the target's record and the second is there; the first too, unless the target overwrote a file meanwhile |
| ConsoleMove.MovingServer.CarryOut | cmd/sagvd/console_move.go:116-207 | whatever both servers do meanwhile, every body that leaves is the sealed model or its key wrapped to the verified escrow key, with the order and then the release on record before; a move that ends has its sending on record after them, both files on the target's record, and both delivered unless the target overwrote a file; and one that has all it needs, and nothing in its way, ends and delivers |
| ConsoleMove.MovingServer.HandleMove | cmd/sagvd/console_move.go:59-113 | the same for an order the holder signed, not carried out before by this process, accepted while the stop is off: any other changes nothing, an accepted one is on record before anything is sent and is never carried out again, and with nothing amiss it ends with both files delivered, the model before its key |
| ConsoleMove.MovingServer.Accept | cmd/sagvd/console_move.go:71-91 | an order is accepted exactly when it parses for this server, was not carried out before, and the list in force loads and is no stop |
| StopSource.OperatorStopSource.Consult | cmd/sagvd/operator_stop.go:27-40 | refuses exactly a serial below the highest consulted, and raises it otherwise |
| StopSource.ConsoleStopSource.Consult | cmd/sagvd/console_api.go:773-793 | the empty list exactly while there is no key and no source; the source is made once, exactly when there is a key and a list to load, which counts as consulted |
| StopRace.RawNeverFalls | cmd/sagvd/operator_stop.go:27-40 | under any interleaving no older list is returned after a newer one |
| StopRace.RefusedExactly | cmd/sagvd/operator_stop.go:27-40 | over a file that only rises a caller is refused if and only if another loaded a newer list after it and came to the lock before it; any other is given the list it loaded |
| StopRace.RunRefusesExactly | cmd/sagvd/operator_stop.go:27-40 | a whole run is free of refusals if and only if no caller in it is overtaken so |
| StopRace.UndisturbedNeverRefuses | cmd/sagvd/operator_stop.go:27-40 | none is refused when no list is written between a load and its comparison |
| StopRace.RefusedWithoutRollback | cmd/sagvd/operator_stop.go:28-37 | two callers and a file that only rises suffice for a refusal |
| StopSource.ConsoleNeverFalls | cmd/sagvd/console_api.go:773-793 | the same of the console's source |
| StopSource.ConsoleNeverRefuses | cmd/sagvd/console_api.go:768-793 | while written serials only rise it never reports a rollback, under any interleaving |
| StopSource.NoEmptyListAgain | cmd/sagvd/console_api.go:768-793 | once the operator key exists no call is answered with the empty list |
| StopSource.AloneAnswered | cmd/sagvd/console_api.go:768-793 | a call nothing disturbs is answered with the list in the file, a rollback when one newer was consulted, unreadable when it cannot be loaded, and the empty list only while there is no key |
| StopSource.FirstLoadCounts | cmd/sagvd/console_api.go:773-793 | the list loaded to make the inner source is the first consulted: a file that falls a moment later is refused |
| ConsoleStop.SourceNeverRefuses | cmd/sagvd/console_api.go:768-793 | with the handler the only writer of the list, and no stop rolling back, the source never reports a rollback and never returns an older list after a newer one |
| Lineage.LinkGoesDown | cmd/acpctl/genome.go:779-789 | a link without fault leads one generation down, though generations wrap |
| Lineage.CheckChain | cmd/acpctl/genome.go:833-861 | names exactly the bundles whose link is broken |
| Lineage.WalkLineage | cmd/acpctl/genome.go:929-958 | the walk ends, in a lineage of generation+1 bundles or at the first broken link |
| Lineage.ChainIffLineages | cmd/acpctl/genome.go:838-861 | no link is broken if and only if every bundle there has a lineage |
| Lineage.LineageIsUnique | cmd/acpctl/genome.go:943-958 | a bundle has at most one lineage, of exactly generation+1 bundles |
| Lineage.StopsShort | cmd/acpctl/genome.go:945-954 | where the walk stops there is no lineage to find |
| Lineage.SealsPass | cmd/acpctl/genome.go:238-249 | any parent-closed directory of seals passes the check |
| Lineage.SealKeeps | cmd/acpctl/genome.go:238-249 | a seal into such a directory keeps it so |
| Lineage.SealBindsParent | cmd/acpctl/genome.go:779-789 | of the bundles that have the hash a child names, exactly one with the generation and, where it was recorded, the payload of the bundle it was sealed from is taken for its parent; the fault says which is wrong |
| Lineage.SealExtends | cmd/acpctl/genome.go:238-249 | the child's lineage is the child and its parent's, if and only if the generation did not wrap |
| Codec.SplitIsLaid | cmd/acpctl/recover.go:99-121 | what decodes was laid out as magic, length, metadata and rest, and loses nothing |
| Codec.LaidSplits | cmd/acpctl/recover.go:86-110 | a layout splits back exactly when the length left, modulo 2^32, is not below the metadata's |
| Codec.MostSignificantFirst | cmd/acpctl/recover.go:87-91 | lengths are written most significant byte first: they compare as their numbers do |
| Codec.DecodeVault | cmd/acpctl/recover.go:99-121 | computes that split, then the metadata and its format, with no slice out of range on any blob |
| Codec.EncodeVault | cmd/acpctl/recover.go:73-95 | fills the defaults in and lays the rest out, for exactly the metadata of at most one mebibyte |
| Codec.DecodeGenome | cmd/acpctl/genome.go:1051-1072 | the same split under its own magic and format |
| Codec.VaultDecodesExactly | cmd/acpctl/recover.go:99-121 | a blob decodes to an envelope and a rest if and only if it is the layout of metadata that reads as that envelope in the accepted format, and that rest, and the 32-bit length reaches over the metadata |
| Codec.GenomeDecodesExactly | cmd/acpctl/genome.go:1051-1072 | the same of the genome bundles, under their magic and format |
| Codec.VaultRoundTrip | cmd/acpctl/recover.go:73-121 | decoding undoes encoding, defaults filled in, if and only if the format is the accepted one or left out and the 32-bit length holds |
| Codec.SmallVaultsRoundTrip | cmd/acpctl/recover.go:73-121 | so whenever metadata and sealed bytes are together below four gibibytes: the format is filled in, the time when it was left out, and the rest is as it was |
| Codec.FourGibibytesDoNotDecode | cmd/acpctl/recover.go:106-110 | the decoder calls an encoded blob truncated exactly when the length left, modulo 2^32, is below the metadata's; so at four gibibytes |
| Codec.OtherFormatsDoNotDecode | cmd/acpctl/recover.go:114-117 | an envelope of another format is encoded and never decodes |
| Codec.SplitIsInjective | cmd/acpctl/recover.go:99-121 | two blobs that split the same are the same blob |
| Codec.NeverBoth | cmd/acpctl/genome.go:1051-1072 | no blob is accepted by both decoders |

## Left out

- Real hashes, signatures, HPKE, certificates, TEE quotes, TLS, JSON and bbolt bytes: ideal, as said above. The console's 8-byte escrow key tags are taken as the keys they name.
- The Return Path template of formal/gen.py (lines 202-400): it needs a TLS abstraction and would repeat the key release.
- Phase 1 in the models of the compromised primary: gen.py drops it there, the model keeps it, so those rows are proved for more runs than recorded.
- A session's two inputs in a row (the answer and the stop list at the source, the policy, report and record at the executor) are taken in one step: the attacker knows them all when the step happens, and knowledge only grows.
- AuditWriter.WriterAndVerifierAgree: the ten-digit padding of archive names is not modelled, so the listing order of logs beyond 10^10 events is not; archives are listed in the order they were made.
- AuditLog.VerifyAuditLog: the partial report that is printed when a log is refused is not modelled; the order of a listing on disk and duplicate names in it are inputs.
- Several daemons on one log, and files changed on disk by anybody else while the daemon serves.
- AuditDaemon.ReturnPathAudit.Append: event ids and their uniqueness over restarts, metrics and logging are not modelled; one call is one turn, the race between writers is RotationBound's.
- AuditShipping.RunsAfterShipping: archives are shipped oldest first; a later archive shipped while an older one stays is a gap the verifier reports, and is not followed further.
- RotationBound.LiveBounded: failures of a rotation are not in that race; a failed rename leaves the segment growing until the next append tries again.
- ConsoleServers.ConsoleServer.HandleJoin: a request that does not parse, the empty code and callers without an Ed25519 key are refused before the model starts. The steps take any requester: who is admitted is ConsoleServers.ConsoleServer.Admit's, before the handler takes its lock, as in the code, so a person removed in between may still finish one request.
- ConsoleRoutes.Serve: admission and handling are taken together, with nothing in between; the routes that only read, the restore check and the move are not in it.
- ConsoleServers.ConsoleServer.HandleInvite: the name and hours rules are not modelled; random codes are taken never to repeat.
- ConsoleMove.MovingServer.HandleMove: which orders were carried out is forgotten by a restart, as in the code. The stop is checked when the order is accepted, not throughout the send, so a stop handled meanwhile does not end it. Progress of two servers moving to each other is not claimed.
- ConsoleMove.EnvelopeFor: the mode check of the key file and the header's other fields are not modelled; a bundle names its key by that key's hash, so the name is the key.
- The bundle is read twice at the source, for its hash and for the send: the open file is taken not to change in between.
- Lineage.CheckChain: the sort by generation before the report, the report's text and v2/v3 header parsing are not modelled; bundles with the same hash are the same bundle.
- The configuration tables, provisioning, identity output, command lines, metrics, health and the check scripts: I/O, or settled by one branch each.
