# RoutineOps: verified models

Dafny models of the parts of RoutineOps whose mistakes are expensive: the temporary-admin session engine and the
evidence it collects, the configuration-as-code reconciler, and the small engines that keep state on disk. Each model
follows its source file branch by branch; the theorems are about all inputs, all runs and all faults the model knows.
`dafny verify dfyconfig.toml` checks everything.

## How it is built

**Temporary administrator rights** (`internal/agent/admin`). `Sessions` is the engine as a state machine: one poll is one
step, and everything the agent cannot decide (clocks, console user, server reply, the fate of each OS call, store access
and delivery, the effect after which the process dies) comes in as data. `AdminManager` is the object whose fields the
agent updates; each of its methods is proved equal to its function in `Sessions`. `RightsSafety`, `RightsLeaks`,
`SessionTrace`, `Reports` and `SelfHealing` prove what holds over every run and exactly when it does not; `Incidents` gives
the runs, from the installation on, in which it does not. `SoftwareDiff`, `ServiceDiff` and `Evidence` are the pure half with its
loops proved against their specification functions, and `WindowLaws` says what a window means. A map iteration order is
the parameter `prefer`, the set of keys that iteration happens to favour.

**Configuration as code** (`cmd/routineops`). `Fleet` is the server and its calls, `Planner` the planner with its loops,
`Executor` the deferred actions with the name tables they share. The server is read through *slots* (the script, policy
body, policy switch, group, rule or assignment of a given name, whatever its id): every action writes fixed slots, and
`Simulation`, `ActionEffects` and `PlanRuns` prove that running a plan writes those and nothing else. `Goals` and
`GroupGoals` prove that the planner writes exactly the slots that miss what the file asks; `References`, `Convergence`,
`Stability` and `ApplyFrame` draw the conclusions. `ExportConfig`, `ExportLaws` and `Exporting` are the way back.

**State on disk.** `Migration` and `DirMigration` with the mutable `Mover.Disk`, `Relocation`, `SeenIds`, `RotatingLog`
and `Dedupe`.

`Ordering` and `Changes` hold the shared vocabulary: lexicographic orders, sorting, canonical arrangements, indexes.

## Where the code falls short of its promise

Each of these is an exact condition, proved for all inputs, with a lemma that shows an input on which the promise fails.

* An interim window whose session record cannot be read is built from a stand-in that knows neither the baseline nor whether
  the user was an admin; once that window is delivered, the stand-in is saved over the real record
  (`internal/agent/admin/manager.go:494-556`). Two promises break on it:
  * a permanent administrator can be demoted after the next restart (`RightsSafety.PollGuardExactly`,
    `RightsSafety.DemotedAfterRestartExactly`; the run is `Incidents.AnAdminIsDemoted`);
  * windows lost in delivery do not always heal: whether one interim send gets through decides whether the final window is
    computed from the session's baseline or from nothing (`SelfHealing.LostWindowsHealExactly`; the two runs are
    `Incidents.OneSendDecidesTheFinalWindow`).
* Temporary rights can outlive their session (`RightsLeaks.PollLeaksExactly`): when the OS refuses the removal
  (`RightsSafety.RefusedRevocationLeaks`), when it reports a failed grant that took effect (`Incidents.AFailedGrantLeaks`), and
  when it does not answer the membership probe, which the code by choice counts as "was an admin"
  (`Incidents.AnUnansweredProbeLeaks`).
* Apply does not always converge (`Stability.AppliesConverge`). The CLI switches a policy with the field `is_active`
  (`cmd/routineops/apply.go:132-159`) while the handler reads `active`
  (`internal/server/api/script_policies_handler.go:211-213`), so an existing policy is never switched on
  (`Stability.OffForEver`, `Stability.ASwitchThatStaysOff`); and the server stores `linux` as `Linux`
  (`internal/server/api/scripts_handler.go:149-170`) while `docs/config-as-code.md:96` asks for `linux`, so such a script is
  updated by every apply (`Stability.RespelledForEver`, `Stability.DocumentedSpellingNeverSettles`).
* Exporting to files succeeds with a directory that apply then refuses to read from, and loses a body when two scripts are
  given the same file name (`ExportLaws.FileExportIsNoOp`, `ExportLaws.TwinsCollide`).
* Relocation can install the certificate as its own key when the key is read from the file the certificate is about to
  overwrite (`Relocation.PairKeptExactly`, `Relocation.KeyIsOverwritten`).
* An id that a line of the file cannot hold is forgotten by a restart and its command runs twice (`SeenIds.RunsTwiceExactly`,
  `SeenIds.ABlankRunsTwice`); one that is too long takes every later id with it (`SeenIds.LongIdDeafens`).
* A log rotation whose rename fails loses the whole current file (`RotatingLog.TextSurvivesExactly`), and one whose
  truncating open fails leaves a wrong size, so that the next write rotates again and discards the backup
  (`RotatingLog.SizeRightExactly`, `RotatingLog.StaleSizeLosesTheBackup`).

## Model

| member | source | states |
|---|---|---|
| AdminManager.Manager.PollServer | internal/agent/admin/manager.go:245-311 | one poll, with a death possible after any of its outward effects, changes the object as the machine's step says: local check, reply, withdrawal, grant, interim window, in that order |
| AdminManager.Manager.RevokeRights | internal/agent/admin/manager.go:402-443 | takes the rights back unless the user was an admin before, tries the final window before the record is cleared, then reports with the latch read at the start |
| AdminManager.Manager.GrantRights | internal/agent/admin/manager.go:313-400 | the record is on disk before the OS call; no record, no rights; a failed call clears the record; an unanswered membership probe counts as an admin |
| AdminManager.Manager.EmitWindow | internal/agent/admin/manager.go:464-528 | an interim window equal to the last one is not sent again; number and digest are saved only after a delivery |
| AdminManager.Manager.LoadBaselineRecord | internal/agent/admin/manager.go:534-556 | an unreadable record yields the stand-in and a lost baseline |
| RightsSafety.TemporaryRightsStayTemporary | internal/agent/admin/manager.go:217-243 | durable, OS calls truthful, store readable: over every run of polls cut short by a crash after any effect, and restarts, the group is the permanent admins plus at most the user of the record, the record's WasAdmin says whether that user is permanent, and without a record the group is exactly the permanent admins |
| RightsSafety.RefusedRevocationLeaks | internal/agent/admin/manager.go:402-443 | after a revocation the group is the permanent admins if and only if the OS did not refuse to remove a temporary member; if the clear works the record is gone either way |
| RightsLeaks.PollLeaksExactly | internal/agent/admin/manager.go:245-443 | from a state in which the group is explained by the permanent admins and the record, a poll that is not cut short keeps it explained if and only if no removal of a temporary member is refused, no grant to a non-admin errs after taking effect or goes on without an answer to the membership probe, and no stand-in is saved over a permanent admin's record |
| Incidents.AFailedGrantLeaks | internal/agent/admin/manager.go:376-386 | a run in which a grant the OS calls failed leaves a member and no record |
| Incidents.AnUnansweredProbeLeaks | internal/agent/admin/manager.go:326-336 | a run in which a user whose membership could not be asked keeps the rights when the grant ends |
| RightsSafety.PollGuardExactly | internal/agent/admin/manager.go:245-311 | under every fault of OS, store and delivery, durable or not, a poll keeps all permanent admins safe if and only if it does not save a stand-in over the record of one of them |
| RightsSafety.NobodyDemoted | internal/agent/admin/manager.go:326-336 | in every run without such a poll no permanent admin is ever out of the group |
| RightsSafety.DemotedAfterRestartExactly | internal/agent/admin/manager.go:494-528 | if the process then restarts and the server withdraws the grant, every permanent admin is still in the group if and only if the poll saved no stand-in over the record of one |
| Incidents.AnAdminIsDemoted | internal/agent/admin/manager.go:494-556 | the run, from the installation on, in which it does: the administrator is out of the group at its end |
| RightsSafety.InterimGuardExactly | internal/agent/admin/manager.go:464-528 | an interim window endangers a permanent admin exactly when it is sent from a stand-in and the stand-in is saved; it never touches the group |
| SessionTrace.SessionsFollowProtocol | internal/agent/admin/manager.go:313-443 | durable, no crash inside a poll, no stand-in saved, each restart finding a readable record exactly if a grant is held: however OS calls, sends, loads, saves and clears fail and the server's flags flip, the effects of a session come in the order record, rights, report, windows, revocation, one final window if and only if evidence was latched at the grant, clear, report; every window is computed from the baseline saved at the grant or openly claims nothing; both reports carry the same id and flag |
| SessionTrace.WorkingClearsAreOrderly | internal/agent/admin/manager.go:217-243 | where every clear works and restarts can read the store, such a run can only be spoilt by a saved stand-in |
| Reports.ReportsAlternate | internal/agent/admin/manager.go:387-443 | in every crash-free run, durable or not, with any faults of OS calls, loads, saves, clears and sends, reports alternate between granted and revoked with equal ids and equal evidence flags, as long as a restarted process comes back with the grant it held |
| Reports.RestartTellsExactly | internal/agent/admin/manager.go:217-243 | a restart keeps the reports in that order if and only if the process comes back with the grant it held |
| Reports.OneLifeAlternates | internal/agent/admin/manager.go:387-443 | in one life of the process the reports alternate with nothing asked of the store at all |
| SessionTrace.PollHoldsExactly | internal/agent/admin/manager.go:245-311 | a poll that does not die ends holding the old grant if and only if neither the local check nor the reply withdrew it, and a new one only from empty hands, approved, unexpired, under a new id |
| SelfHealing.NumbersNeverRunAhead | internal/agent/admin/manager.go:464-528 | in every run, crashes and restarts included, a window's number is at most one more than the windows delivered before it in its session |
| SelfHealing.LostWindowsHealExactly | internal/agent/admin/manager.go:464-528 | two runs that differ only in which sends and number saves succeed, unreadable records and crashes included, agree at every step in grants, revocations, reports, records and in every field but the number of their final windows, if and only if no step saves a stand-in over the record, or dies, in one of them alone |
| SelfHealing.ReadableRecordsHeal | internal/agent/admin/manager.go:464-528 | so lost windows do heal in every run without a crash inside a poll in which each interim window can read its record |
| SelfHealing.PollsAlikeExactly | internal/agent/admin/manager.go:464-556 | the same of one poll |
| Incidents.OneSendDecidesTheFinalWindow | internal/agent/admin/manager.go:494-556 | two runs, the same but for one interim send, whose final windows say that the session began at 0 and at its true beginning |
| SoftwareDiff.DiffSoftware | internal/agent/admin/diff.go:74-110 | the loops over the two maps, the collapsing and the sort produce the canonical software delta for some preference of map iteration |
| SoftwareDiff.CollapseReinstalls | internal/agent/admin/diff.go:120-153 | collapsing produces a complete pairing: at most one pair per (name, vendor), one wherever both kinds exist, each row kept or replaced once |
| SoftwareDiff.PairingIsPairBy | internal/agent/admin/diff.go:120-153 | every pairing that collapsing may produce arises from some iteration preference |
| SoftwareDiff.EveryNewKeyReported | internal/agent/admin/diff.go:74-153 | a key of the new snapshot has a row if and only if it is new or its version changed; no key has two; the row carries name, vendor, scope and new version, and as old version the key's own, that of a gone record of the same (name, vendor), or none |
| SoftwareDiff.EveryGoneKeyAccounted | internal/agent/admin/diff.go:74-153 | a key that is gone is reported as removed, or its old version is carried by the one reinstall of its (name, vendor), never both |
| SoftwareDiff.OneCollapsePerLabel | internal/agent/admin/diff.go:120-153 | a (name, vendor) has a collapsed update if and only if it has a new and a gone record, and then exactly one |
| SoftwareDiff.SoftwareDeltaBalances | internal/agent/admin/diff.go:74-153 | installed minus removed rows equals new minus gone keys |
| SoftwareDiff.SoftwareDeltaCanonical | internal/agent/admin/diff.go:79-151 | with unique keys and unambiguous labels the delta is the same for every order of the lists and of map iteration |
| ServiceDiff.DiffServices | internal/agent/admin/diff.go:156-223 | the service loops and the sort produce the canonical service delta |
| ServiceDiff.EveryServiceAccounted | internal/agent/admin/diff.go:156-245 | a service has a row if and only if it is new, gone or defined differently; none has two; the kind names the first difference in the order account, start type, definition, and the row quotes both sides of it |
| ServiceDiff.ServiceDeltaCanonical | internal/agent/admin/diff.go:156-223 | the service delta does not depend on the order of the lists |
| Evidence.DegradeChanges | internal/agent/admin/diff.go:247-261 | under a lost or unhealthy baseline every row is of unknown attribution, otherwise none is touched |
| Evidence.TruncateChanges | internal/agent/admin/window.go:200-217 | the in-place sort of positions and the picking loop return a canonically sorted list of exactly the positions kept |
| Evidence.TruncationKeepsWhatMatters | internal/agent/admin/window.go:200-230 | exactly max positions are kept, none dropped outranks one kept, ties keep the canonically earlier, and all human_likely changes survive when they fit |
| Evidence.BuildWindow | internal/agent/admin/window.go:114-190 | the window built field by field is the specified one |
| WindowLaws.CompleteExactly | internal/agent/admin/window.go:241-254 | a window is complete if and only if both sources were seen healthy and non-empty before and after, the baseline is there, the end is not stale and nothing was cut |
| WindowLaws.CompleteIsWhole | internal/agent/admin/window.go:114-190 | a complete window carries exactly the two full deltas with their own attributions and counts them |
| WindowLaws.EmptyCompleteMeansUnchanged | internal/agent/admin/window.go:241-254 | a complete window is empty if and only if both snapshots have the same software keys and versions and the same services with equal account, start type, image path and definition hash |
| WindowLaws.LostBaselineClaimsNothing | internal/agent/admin/window.go:114-190 | without a baseline no change is claimed |
| WindowLaws.TruncatedWindowKeepsTheWorst | internal/agent/admin/window.go:174-230 | an overflowing window holds exactly the limit in canonical order, and every row it drops is of a weaker attribution or equally attributed and later |
| WindowLaws.WindowIgnoresBookkeeping | internal/agent/admin/window.go:114-190 | of a record's bookkeeping only the window number can show in a window, and not in its digest |
| WindowLaws.WindowCanonical | internal/agent/admin/window.go:306-315 | with unique keys and unambiguous labels window and digest are the same for every order of lists and map iteration |
| Planner.ApplyPlan | cmd/routineops/apply.go:31-308 | the loops over scripts, policies and groups, with the maps they shrink as they go, produce the specified plan |
| Planner.PlanSoftware | cmd/routineops/apply.go:198-259 | a nil list plans nothing; otherwise listed rules are added or replaced in the file's order and the rest dropped in the order of their names |
| Planner.PlanAssignments | cmd/routineops/apply.go:261-304 | a nil list plans nothing; otherwise missing policies are assigned in the file's order and the rest unassigned in the order of their keys |
| ActionEffects.LegalActionPerforms | cmd/routineops/apply.go:73-301 | an action whose target and references are there succeeds, keeps the server consistent and the name tables true, writes exactly its slots, and enters what it creates |
| PlanRuns.WholePlanRuns | cmd/routineops/main.go:163-174 | a plan of actions that do not overlap finishes if and only if its references resolve as it goes; then the server holds what the plan writes and is otherwise untouched |
| Goals.ChangedIsDifferent | cmd/routineops/apply.go:312-350 | the planner's body comparison is equality of trigger, script and both configurations by value |
| Goals.PolicyPlanMeets | cmd/routineops/apply.go:102-161 | the policy actions write exactly the bodies and switches that differ from the file, each once |
| GroupGoals.GroupPlanMeets | cmd/routineops/apply.go:163-304 | the group actions write exactly the group, rule and assignment slots that differ from the file, each once |
| Convergence.NothingToDoExactly | cmd/routineops/apply.go:20-30 | the plan is empty if and only if the server satisfies the file: scripts, policies and groups as written, a listed collection exactly as listed |
| Convergence.ApplyFinishesExactly | cmd/routineops/apply.go:105-117 | apply finishes without an error if and only if every script and policy the file refers to is in the file or on the server |
| Stability.AppliesConverge | cmd/routineops/apply.go:31-308 | after an apply the server satisfies the file, and planning again yields nothing, if and only if every platform is spelled as the server stores it (or the script was in place) and every policy to be switched on can be |
| Stability.OneApplyIsEnough | cmd/routineops/main.go:163-174 | after any number of applies, each from a listing of what the one before left, the server satisfies the file if and only if one apply would have done: trying again never helps |
| Stability.StoppedAnywhere | cmd/routineops/main.go:163-174 | a run stopped after any step leaves a consistent server on which the file still resolves, and which settles exactly if the first one did |
| Stability.ResumedApplyConverges | cmd/routineops/main.go:163-174 | stopped anywhere and applied again from whatever the server then shows, apply finishes, and satisfies the file exactly when an undisturbed apply would have |
| Stability.RespelledForEver | cmd/routineops/apply.go:89-100 | a script whose platform the server spells otherwise is, after every apply, stored in the server's spelling, different from the file, and in the next plan again |
| Stability.DocumentedSpellingNeverSettles | docs/config-as-code.md:96-99 | a file with the documented spelling applies to an empty server and stays unsettled after any number of applies |
| Stability.OffForEver | internal/server/api/script_policies_handler.go:211-230 | a policy that is off on the server and on in the file is still off, and in the next plan again, after any number of applies |
| Stability.ASwitchThatStaysOff | internal/server/api/script_policies_handler.go:211-230 | a consistent server and a resolving file with such a policy |
| ApplyFrame.EveryStepLeavesTheRest | cmd/routineops/apply.go:20-30 | after every step of the plan, whether or not the next one succeeds: unnamed scripts, policies and groups are the very same objects; so is every rule of a device, of an unnamed group or of a group whose software the file does not list; a policy keeps its place in every group whose policies the file does not list |
| ApplyFrame.ApplyLeavesTheRest | cmd/routineops/apply.go:20-30 | the same of a whole apply |
| Exporting.Export | cmd/routineops/export.go:19-96 | the bucketing loops and sorts produce the specified file and script files |
| Exporting.ExportIsStable | cmd/routineops/export.go:12-18 | the file is the same whatever order the server answers in |
| Exporting.LoadScripts | cmd/routineops/apply.go:354-376 | reading every body, or failing at the first that cannot be read, is what the planner starts from |
| ExportConfig.ListingShows | cmd/routineops/apply.go:50-62 | the rows of a consistent server, in any order, index to a true picture of it |
| ExportLaws.ExportThenApply | cmd/routineops/export.go:19-96 | applying an export to its own server plans nothing if and only if every script body comes back as it was |
| ExportLaws.InlineExportIsNoOp | cmd/routineops/export.go:67-81 | with inline bodies the export can be read back if and only if no body is empty, and then applying it plans nothing |
| ExportLaws.FileExportIsNoOp | cmd/routineops/export.go:67-81 | with bodies in files the export can be read back if and only if every path stays below the file, and then applying it plans nothing if and only if no two scripts with different bodies share a path |
| ExportLaws.TwinsCollide | cmd/routineops/export.go:67-81 | a consistent server with two scripts whose names give one path, and whose export plans a change on that very server |
| Mover.Disk.Move | cmd/agent/migrate_state.go:82-110 | the move, effect by effect, changes the disk as specified |
| Mover.Disk.MoveDirectory | cmd/agent/migrate_state.go:115-158 | the loop over the entries changes the disk as specified |
| Migration.MoveIsCrashSafe | cmd/agent/migrate_state.go:82-191 | whatever failed and wherever it crashed: a destination that was there is untouched, otherwise the whole content is at the source or at the destination, never a partial destination, and only the temporary file can differ besides |
| Migration.MoveConverges | cmd/agent/migrate_state.go:82-191 | after any number of failed or crashed attempts one undisturbed run ends where an undisturbed first run would have |
| DirMigration.NoRecordIsLost | cmd/agent/migrate_state.go:115-158 | at every point of every sequence of attempts each record is whole at the old or the new place, and none already at the new place is touched |
| DirMigration.DirConverges | cmd/agent/migrate_state.go:115-158 | every sequence of attempts followed by an undisturbed one ends in one and the same disk, old directory removed if and only if it holds no subdirectory |
| Relocation.Machine.RelocateIdentity | cmd/agent/main.go:1168-1206 | the three cases and the removal of the original key change files and configuration as specified |
| Relocation.Machine.CopyFile | cmd/agent/main.go:1227-1259 | nothing happens when source and destination are one file under two names |
| Relocation.PairKeptExactly | cmd/agent/main.go:1168-1206 | the installed pair is the source pair if and only if the key is not read from the file the certificate is written over |
| Relocation.KeyIsOverwritten | cmd/agent/main.go:1168-1206 | a sound file system on which the certificate is installed as its own key |
| Relocation.SharedKeySurvives | cmd/agent/main.go:1180-1194 | a key that already is the destination's file is neither truncated nor removed |
| Relocation.NoSecondKey | cmd/agent/main.go:1180-1194 | the original key remains if and only if it is the installed file |
| Relocation.SecondRelocationChangesNothing | cmd/agent/main.go:733-754 | after a relocation that kept the pair a second retarget and relocation succeeds and changes neither installed file |
| SeenIds.SeenSet.constructor | internal/agent/command/seen.go:25-43 | the scanning loop reads back exactly the ids of the file, memory only without a path |
| SeenIds.SeenSet.MarkIfNew | internal/agent/command/seen.go:54-76 | new exactly if not in the set; the id is added and appended |
| SeenIds.ComesBackExactly | internal/agent/command/seen.go:25-43 | an appended id is read back if and only if it is trimmed, not empty, without newline and below the scanner's limit |
| SeenIds.NewExactlyOnce | internal/agent/command/seen.go:54-63 | over any run of calls and restarts a storable id is reported new exactly at its first call, and not at all if it was on file |
| SeenIds.RunsTwiceExactly | internal/agent/command/seen.go:54-76 | marked, restarted and marked again an id is new a second time if and only if it is not storable |
| SeenIds.ABlankRunsTwice | internal/agent/command/seen.go:54-76 | an id that ends in a blank, on an empty file, is new twice |
| SeenIds.LongIdDeafens | internal/agent/command/seen.go:34-41 | after an id as long as the limit nothing written later is read back |
| RotatingLog.Rotating.Write | internal/agent/applog/applog.go:47-59 | a write, with every file-system fault, changes backup, current file and believed size as specified |
| RotatingLog.RetainsTheTail | internal/agent/applog/applog.go:47-73 | without faults backup and current together are always a suffix of everything written, the size is right, and the bound holds while no single write exceeds it |
| RotatingLog.RotatesExactly | internal/agent/applog/applog.go:47-73 | a rotation happens exactly when the text would not fit and keeps the whole current file as the backup |
| RotatingLog.SizeRightExactly | internal/agent/applog/applog.go:63-73 | a rotation leaves the size right if and only if the truncating open worked, or the old file was reopened in place, or it was empty |
| RotatingLog.TextSurvivesExactly | internal/agent/applog/applog.go:63-73 | the current text survives a rotation if and only if the rename worked or the truncation did not happen (or there was nothing to lose) |
| RotatingLog.StaleSizeLosesTheBackup | internal/agent/applog/applog.go:47-73 | after such a wrong size the next write, however short, rotates again and the backup holds only the last write |
| Dedupe.DedupeSoftware | internal/agent/collector/collector.go:111-128 | the loop that overwrites in place yields one record per (name, version) in order of first occurrence: the first machine-wide one, or the first |
| Dedupe.DedupeMeans | internal/agent/collector/collector.go:105-128 | the result is determined, drops no name and version, and is per-user only where all records are |
| Dedupe.DedupeTwice | internal/agent/collector/collector.go:105-128 | de-duplicating again changes nothing |

## Left out

* The gRPC, protobuf and HTTP plumbing, the outbox and its retries: fetch, send and report are oracle steps; a hook that is
  nil (no sender, no snapshot) is not modelled.
* The OS group, registry and inventory probes: their answers are inputs. Other programs changing the group during a session
  are outside the model.
* Digests are the tuple that is digested, not its SHA-256; definition hashes are opaque strings.
* Log lines, plan descriptions and report texts; the operator's confirmation; YAML and JSON as text (a trigger
  configuration is a JSON value, numbers are reals).
* Names are compared after trimming space, tab, newline and carriage return and lowering ASCII letters; the Unicode parts
  of trimming and lower-casing are not modelled. Text is a sequence of characters, and length limits count those.
* What the server checks of field values (empty names, cron expressions, trigger types, the form of a colour): requests are
  assumed to pass those checks. A network failure between the two requests of one action is not a step of its own, but the
  theorems about apply start from any consistent server, and what such a failure leaves is one.
* Files that name an object twice in one list, or give a platform the server does not know: the theorems about apply exclude
  them (the server refuses the second creation, and the platform). The planner itself is specified for every file.
* The slug that names a script file is a parameter; whether two names share one is the condition of the theorem.
* The fallback of reading a file's metadata: a file's existence is reported truthfully during migration and relocation.
* The binary, CA and release key parts of relocation, and keystore mode; a copy that fails half-way during relocation.
* The order in which the state files are migrated: each move is independent of the others.
* Concurrency inside the process: every method of these objects holds its mutex throughout.
- Exporting.Export: stated for the rows of a consistent server: the database's unique indexes promise the unique names; that a group has at most one rule per software is an assumption (the API that adds a rule does not check it). With equal names Go's unstable sort makes the order arbitrary.
- SessionTrace.SessionsFollowProtocol: says nothing of polls cut short by a crash; for those see RightsSafety.TemporaryRightsStayTemporary.
- RightsLeaks.PollLeaksExactly: speaks of polls that are not cut short, because a crash between a failed step and the clearing of the record leaves a record that the next process still acts on.
- Relocation.Machine.RelocateIdentity: says nothing of the files when it fails, because the installation is then abandoned.
- Evidence.TruncateChanges: the kept list is given as a multiset in sorted order, because equal rows are interchangeable.
