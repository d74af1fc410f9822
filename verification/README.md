# Verified models of the agent hangar

Dafny models of the parts of the repository whose correctness is hardest to see by reading: protocols
that must keep a promise through failures, crashes and interleavings, and text transformations that
must not depend on where their input was cut. Everything outside a model — servers, processes, git,
the model provider, the clock — may do whatever its interface allows; what is proved holds for all of it.

| part | files | what is proved |
|---|---|---|
| Master-key rotation | `SecretStore`, `KeyRotation`, `RotationProofs`, `RotationEnds`, `RotationScript`, `RotationScriptProofs` | no pattern of commits, rejections and crashes loses a secret; what each exit code promises and exactly when it is given; a salvage run repairs any history of interrupted runs; the script around it never loses a key, wherever its runs are killed, and exactly when one more run finishes |
| Port-base claims | `PortBase`, `PortBaseProofs`, `PortBaseTraces`, `PortBaseExact`, `PortSweep`, `PortSolo` | one live holder per base over all interleavings that meet no hazard, that exactly those runs are safe, and that every hazard happens; the sweep of one process |
| Workspace preparation | `Git`, `Divergence`, `Prepare`, `PrepareProofs`, `PrepareReports`, `PrepareRunner` | local branches and their commits survive, exactly except in one case; where a preparation lands; what it reports, and when it succeeds; the divergence note |
| The turn | `TurnEvents`, `TurnConversation`, `TurnLoop`, `EventWriter`, `TurnCommand` | one outcome per turn and why, its accounts, what the provider is shown, the writer's order, one outcome and one exit code per command |
| Reading a turn back | `EventStream`, `SmokeReader`, `SseResponse` | chunks do not matter, frames round-trip, a turn is observed as it happened, resuming is exact |
| Texts | `Redactor`, `RedactorProofs`, `PushDetector`, `RepoUrl` | the exact-value redaction, the push grammar, the two repository-URL rules |

How the outside world is modelled:

- *Rotation.* The fates of all repository calls are given in advance: answered, committed and rejected,
  rejected, or the process dies before or after the commit. A crash is a fate, so a statement about
  the final store of every run is a statement about every intermediate store. Ciphers are abstract: an
  envelope opens under the key, version and row it was sealed with and fails closed otherwise. One
  rotation runs at a time, and the two keys differ. The script may be killed before any of its steps; each
  of its files changes in one step, and a key it makes is used nowhere else.
- *Port bases.* Any number of processes, interleaved at every call that reads or changes a marker, a
  lock or a process; any process may die anywhere; pids are not reused.
- *Preparation.* Every git command may fail with or without effect, and every network command meets
  whatever the remote holds at that moment.
- *The turn.* A provider yields any events and raises anywhere, a tool streams and answers anything,
  each write may fail, the abort signal may rise and an armed heartbeat fire at any await. A line
  whose write reports an error is not delivered.
- *Definitions kept closed.* A few predicates (`IsSeen`, `Reflects`, `Owes`, `Keeps`, `Carries`,
  `DecodedSoFar`) are said of every prefix as long as the whole, which is the whole; `ReflectsAll`,
  `OwesAll`, `KeepsAll`, `CarriesAll` and `DecodedMeans` state what they mean. Others are said of whatever
  number equals one (`Common.Of`), which is that number.

Where the code and what is said about it differ, the models follow the code:

- A failure-free salvage run completes exactly when every stored secret is non-empty, because storing an
  empty secret is refused (`RotationProofs.FaultFreeRotation`).
- A rotation that is killed while it gives up, after the new key is removed and before the record is, is
  never finished by `--resume`, and a fresh run refuses: the record speaks of a key that is not there
  (`RotationScriptProofs.GetsStuck`, `StuckForever`). Nothing is lost, and of a store whose secrets can be
  rotated it is the only state in which one more undisturbed run does not finish (`OneMoreRunFinishes`).
- Port-base exclusion is not kept by every interleaving. It is lost exactly by a step that judges a
  marker abandoned while it is missing or names a live process, or that removes a reclaim lock naming a
  live process: after such a step, and only then, two live processes can come to hold one base with
  nothing else going wrong (`PortBaseExact`). One of these steps needs neither a vanished file nor a
  death in the locked section: an owner that releases its claim and exits between the read of its marker
  and the probe of its pid (`PortBaseTraces.ReleaseThenExit`).
- A `rev-parse` that is killed reads as "no local branch", and then the reset discards what the branch
  had; `Clobbers` is the exact condition. `ls-remote` also answers for a branch whose last path
  components are the name, and then the fetch fails. A remote tag of the work branch's name is fetched in
  place of the branch (`PrepareProofs.CreatedWherePublished`).
- A new work branch is reported as created from the base branch, but starts at HEAD, wherever an earlier
  turn left it (`PrepareReports.CreatedFromHead`).
- A preparation whose base and work branch are one tag succeeds on no branch at all
  (`PrepareProofs.TagLandsDetached`); `DetachedExactly` is the exact condition.
- A URL with a third slash, `https:///u:t@h/a/b`, passes the API's rule with its credentials, since the
  authority that is searched for an `@` is empty while the URL parser skips the slash; the workspace
  refuses it (`RepoUrl.ThirdSlashHidesCredentials`). With a host right after `://` this cannot happen.
- A registered value that overlaps the token survives redaction: `REDACTED` itself is long enough to be
  registered (`RedactorProofs.ValueInsideToken`). Which values survive alone and which in company is
  proved exactly (`SurvivesExactlyIfLeaky`, `CleanInCompanyExactlyIfClear`).
- The token file outlives a turn that wrote it and could not tighten its permissions, since its path is
  then unknown to the cleanup; `TurnCommand.TokenStaysExactly` says when a file is left.
- The workspace's path pattern accepts a repository named `.git`; the API's rule does not.

## Model

| member | source | states |
|---|---|---|
| SecretStore.SecretRepository.GetRow | packages/core/src/persistence/repositories/secret.repository.ts:46-49 | a read answers with the stored row or raises, and changes no row |
| SecretStore.SecretRepository.UpsertRow | packages/core/src/persistence/repositories/secret.repository.ts:26-44 | a write commits exactly on the fates that commit, whether or not it is acknowledged |
| SecretStore.SecretRepository.Set | packages/core/src/secrets/secrets-service.ts:54-63 | an empty plaintext is refused; anything else is sealed for its row under the service's key and version |
| SecretStore.SecretRepository.RevealRow | packages/core/src/secrets/secrets-service.ts:77-83 | a missing row reads as nothing; a row that does not open under the service raises |
| KeyRotation.ReadCurrentKeyVersion | infra/scripts/lib/rotate-key.ts:161-170 | the loop over the rows means the specified fold, fault by fault |
| KeyRotation.OpenOne | infra/scripts/lib/rotate-key.ts:208-227 | strict gives up when the current key fails; salvage tries the new key and records which one opened the row |
| KeyRotation.RevealEverySecret | infra/scripts/lib/rotate-key.ts:240-269 | the reading loop means phase 1 |
| KeyRotation.WriteEverySecret | infra/scripts/lib/rotate-key.ts:280-303 | the write loop records each secret before its write is awaited |
| KeyRotation.CompensateEverySecret | infra/scripts/lib/rotate-key.ts:182-198 | the rollback writes every recorded secret back and lists those whose write failed; which those are is `RotationEnds.CompensateExactly` |
| KeyRotation.RotateSecrets | infra/scripts/lib/rotate-key.ts:330-353 | the whole rotation over the store means the function the theorems are about |
| RotationProofs.StoredCount | infra/scripts/lib/rotate-key.ts:240-269 | phase 1 lists every stored row once, so its list is as long as the store |
| RotationProofs.RevealAllReads | infra/scripts/lib/rotate-key.ts:208-269 | phase 1 writes nothing; when it succeeds it holds every stored secret and knows exactly which are under the new key |
| RotationProofs.RevealAllExactly | infra/scripts/lib/rotate-key.ts:208-269 | without faults phase 1 succeeds iff every stored row may be opened in that mode |
| RotationProofs.HighestVersionIsLeastBound | infra/scripts/lib/rotate-key.ts:161-170 | the stamped version bounds every stored one from above and is one of them or the floor |
| RotationProofs.VersionRead | infra/scripts/lib/rotate-key.ts:161-170 | the version read is the highest stored one, and reading it changes nothing |
| RotationProofs.SetTracks | infra/scripts/lib/rotate-key.ts:280-303 | one write, whatever its fate, keeps each row at its secret and version under one of the two keys and every new-key row recorded |
| RotationProofs.WriteAllTracks | infra/scripts/lib/rotate-key.ts:280-303 | the write loop keeps that at every point of every run |
| RotationProofs.WriteAllMoves | infra/scripts/lib/rotate-key.ts:280-303 | a write loop that finishes leaves every listed row under the new key |
| RotationProofs.WriteAllExactly | infra/scripts/lib/rotate-key.ts:280-303 | without faults the write loop finishes iff no plaintext is empty |
| RotationProofs.CompensateTracks | infra/scripts/lib/rotate-key.ts:182-198 | the rollback keeps the same invariant and leaves rows it was not given alone |
| RotationProofs.CompensateReports | infra/scripts/lib/rotate-key.ts:81-93 | what could not be written back is reported in storage order, and all of it had been issued; which of it exactly is `RotationEnds.CompensateExactly` |
| RotationProofs.CompensateRestores | infra/scripts/lib/rotate-key.ts:182-198 | after a rollback that returns, every issued secret is under the old key or among the stranded |
| RotationProofs.PhaseTwoExactly | infra/scripts/lib/rotate-key.ts:280-318 | without faults phase 2 returns, with success iff no secret is empty |
| RotationProofs.WritePhase | infra/scripts/lib/rotate-key.ts:280-318 | phase 2 preserves every secret and its outcome means what it promises |
| RotationProofs.RotationKeepsEverySecret | infra/scripts/lib/rotate-key.ts:330-353 | for every pattern of commits, rejections and crashes no row appears or disappears and each holds its secret at its version under one of the two keys; each outcome holds: success all new and counted, rolled back all old, incomplete with a non-empty ordered list that holds every row still new, aborted untouched |
| RotationProofs.FaultFreeRotation | infra/scripts/lib/rotate-key.ts:330-353 | which stores a fault-free rotation completes on, in both modes, as an equivalence |
| RotationProofs.RunsPreserve | infra/scripts/lib/rotate-key.ts:60-68 | any sequence of rotations, each with its own faults and mode, preserves every secret |
| RotationProofs.SalvageRecovers | infra/scripts/lib/rotate-key.ts:60-68 | after any such sequence one fault-free salvage run succeeds, with every secret intact under the new key |
| RotationEnds.WriteLoopStops | infra/scripts/lib/rotate-key.ts:286-299 | the write loop stops at the first secret that is empty or whose own write is not acknowledged; what counts as issued is what it was handed and every secret up to that one |
| RotationEnds.CompensateExactly | infra/scripts/lib/rotate-key.ts:182-198 | a rollback returns iff the process does not die in one of its writes, and then names exactly the issued secrets whose own write-back raised, in storage order, read off the fates the calls meet |
| RotationEnds.OnlyEmptyOnesFail | infra/scripts/lib/rotate-key.ts:182-198 | without faults exactly the issued secrets that are empty cannot be written back |
| RotationEnds.RotationEndsExactly | infra/scripts/lib/rotate-key.ts:280-341 | which rotations end in each exit, as equivalences: rolled back iff everything was read, a write raised, and no write-back raises or dies; incomplete iff one raises and none dies; and which names are then reported |
| RotationEnds.OneFailedWrite | infra/scripts/lib/rotate-key.ts:286-314 | one rejected write, committed or not, after any number of acknowledged ones, ends as rolled back with nothing stranded and every row under the old key |
| RotationScript.KeyDirectory.FreeBackupPath | infra/scripts/rotate-key.sh:159-169 | the loop finds the first of the numbered names that no backup has |
| RotationScript.KeyDirectory.PutKeyInPlace | infra/scripts/rotate-key.sh:174-190 | the swap as it runs, killed at any step, means its specification |
| RotationScript.KeyDirectory.ReencryptAll | infra/scripts/rotate-key.sh:311-347 | the same for the part around the helper |
| RotationScript.KeyDirectory.Rotation | infra/scripts/rotate-key.sh:284-351 | the same for a whole run, fresh or resumed |
| RotationScriptProofs.FreePathIsFree | infra/scripts/rotate-key.sh:156-169 | no backup is written over |
| RotationScriptProofs.HelperKeeps | infra/scripts/rotate-key.sh:319-343 | whatever the helper meets, every secret stays under one of the two keys; exit 0 means all are under the new one, and the exits on which the new key is removed mean none is |
| RotationScriptProofs.PutInPlaceKeeps | infra/scripts/rotate-key.sh:171-190 | wherever the swap is killed the invariant holds, so that running it again finishes it; the old key is in a backup before it stops being current |
| RotationScriptProofs.RunKeeps | infra/scripts/rotate-key.sh:284-351 | a run keeps the invariant wherever it is killed, and one that ends leaves the new key in place, or none, or everything to be resumed, as its exit says |
| RotationScriptProofs.NoSecretIsLost | infra/scripts/rotate-key.sh:22-29 | over any number of runs, each killed anywhere: the key file exists, every secret is the same secret under a key that is on disk, and every key that was ever current is current or in a backup |
| RotationScriptProofs.FinishesExactly | infra/scripts/rotate-key.sh:284-350 | which stores and records a run that nothing happens to finishes from, as an equivalence |
| RotationScriptProofs.OneMoreRunFinishes | infra/scripts/rotate-key.sh:5-20 | after any number of runs, each killed anywhere, one undisturbed run finishes the rotation with every secret the same under the current key, iff the record does not speak of a new key that is gone |
| RotationScriptProofs.GetsStuck | infra/scripts/rotate-key.sh:331-335 | from any store, a run killed between the two removals of giving up leaves such a record |
| RotationScriptProofs.StuckOnlyByKill | infra/scripts/rotate-key.sh:325-343 | only a run that is killed does |
| RotationScriptProofs.StuckForever | infra/scripts/rotate-key.sh:287-303 | no run, fresh or resumed, ever finishes or changes anything from there |
| PortBaseProofs.InvMeansExclusive | infra/scripts/testing/port-base.ts:188-269 | the invariant gives one live holder per base, named by its marker, and one live process per locked section |
| PortBaseProofs.StepKeepsInvExactly | infra/scripts/testing/port-base.ts:128-269 | a step of any process keeps the invariant iff it meets no hazard |
| PortBaseProofs.HazardBreaksInv | infra/scripts/testing/port-base.ts:188-250 | a wrong verdict breaks exclusion at once, and a lock theft leaves its holder inside an unlocked section |
| PortBaseProofs.ExclusionWithoutHazards | infra/scripts/testing/port-base.ts:261-269 | every interleaving without a hazard is exclusive throughout; the converse is `PortBaseExact.ExactlyTheHazardFreeRuns` |
| PortBaseProofs.QuietKeepsEvidence | infra/scripts/testing/port-base.ts:188-224 | while inspected files stay and the backstop is silent, what an inspection has read stays true |
| PortBaseProofs.QuietRunsExclude | infra/scripts/testing/port-base.ts:188-269 | a condition an operator can see, no file removed while another process inspects it and no backstop, rules out every hazard, with deaths anywhere |
| PortBaseProofs.ExclusionFromStart | infra/scripts/testing/port-base.ts:261-269 | both conditions, from a machine with only leftover files |
| PortBaseTraces.AgedMarker | infra/scripts/testing/port-base.ts:80-89 | the age backstop alone gives two live holders |
| PortBaseTraces.ReleaseBeforeStat | infra/scripts/testing/port-base.ts:188-201 | a release between the probe and the age check gives two live holders |
| PortBaseTraces.ReleaseThenExit | infra/scripts/testing/port-base.ts:188-201 | a release and exit between the read and the probe gives two live holders |
| PortBaseTraces.SecondReclaimer | infra/scripts/testing/port-base.ts:151-160 | a marker that vanishes before it is read reads as abandoned, and two processes end up holding the base |
| PortBaseTraces.TwoRecoverers | infra/scripts/testing/port-base.ts:215-224 | two processes recover one dead holder's lock, and two end up holding the base |
| PortBaseExact.HazardIsFatal | infra/scripts/testing/port-base.ts:188-269 | after any hazard met in a state the invariant allows, some continuation without a further hazard has two live holders of one base |
| PortBaseExact.InvIsNotDoomed | infra/scripts/testing/port-base.ts:188-269 | before any hazard no such continuation exists |
| PortBaseExact.StepDoomsExactly | infra/scripts/testing/port-base.ts:128-269 | a step makes such a continuation possible iff it meets a hazard |
| PortBaseExact.ExactlyTheHazardFreeRuns | infra/scripts/testing/port-base.ts:128-269 | a run meets no hazard iff at none of its points such a continuation exists |
| PortBaseExact.EveryHazardHappens | infra/scripts/testing/port-base.ts:80-269 | each hazard, as the only one, leads from a machine with no file and no process to two live holders |
| PortSweep.PortAllocator.Publish | infra/scripts/testing/port-base.ts:128-142 | a path is taken exactly when it was free, and then names this process |
| PortSweep.PortAllocator.OwnerOf | infra/scripts/testing/port-base.ts:151-160 | a missing or unreadable file has no owner |
| PortSweep.PortAllocator.IsAbandoned | infra/scripts/testing/port-base.ts:188-201 | abandoned means no readable owner, a dead one, or an aged file |
| PortSweep.PortAllocator.TakeReclaimLock | infra/scripts/testing/port-base.ts:215-224 | alone, the lock is taken iff it is free or abandoned |
| PortSweep.PortAllocator.ReclaimIfOwnerGone | infra/scripts/testing/port-base.ts:238-250 | exactly an abandoned marker is removed, and the lock is dropped again |
| PortSweep.PortAllocator.ClaimPortBase | infra/scripts/testing/port-base.ts:261-269 | a claim succeeds iff the marker was free; otherwise it leaves what a reclaim leaves |
| PortSweep.PortAllocator.ReservePortBase | infra/scripts/testing/port-base.ts:286-300 | alone, a reservation succeeds iff some base of the range is free or abandoned, takes such a base, and disturbs no file of a live process |
| PortSweep.PortAllocator.ReleasePortBases | infra/scripts/testing/port-base.ts:308-313 | exactly the markers of the claims go |
| PortSweep.EveryBaseTwice | infra/scripts/testing/port-base.ts:286-300 | the attempts visit every aligned base of the range exactly twice |
| PortSweep.BlocksDisjoint | infra/scripts/testing/port-base.ts:74-75 | different bases of a range give disjoint three-port blocks inside it |
| PortSolo.SoloClaim | infra/scripts/testing/port-base.ts:261-269 | the interleaved machine, run by one process alone, does what the allocator's contract says |
| Git.CollectAncestors | packages/agent-runtime/src/prepare.ts:401-415 | a graph search collects exactly the commits a walk over parents reaches |
| Git.GitRunner.CountRevs | packages/agent-runtime/src/prepare.ts:401-415 | the count is the number of commits one tip reaches and the other does not |
| Divergence.CountsNothing | packages/agent-runtime/src/prepare.ts:401-415 | a side counts nothing iff its tip is an ancestor of the other |
| Divergence.NoteIsExact | packages/agent-runtime/src/prepare.ts:428-443 | on any acyclic history: no note iff the tips are one commit, diverged iff neither is an ancestor, ahead or behind iff one is a strict ancestor; with the true counts |
| PrepareRunner.RunCloneOrFetch | packages/agent-runtime/src/prepare.ts:275-301 | the commands issued are those the specification composes |
| PrepareRunner.RunCreateWorkBranch | packages/agent-runtime/src/prepare.ts:457-476 | the same for creating the work branch |
| PrepareRunner.RunResumeWorkBranch | packages/agent-runtime/src/prepare.ts:490-503 | the same for resuming it |
| PrepareRunner.RunSwitchToWorkBranch | packages/agent-runtime/src/prepare.ts:527-541 | the same for choosing between the two |
| PrepareRunner.RunVerifyHead | packages/agent-runtime/src/prepare.ts:574-586 | the same for reading where the checkout is; it reports `HeadMoved` with both commits iff one was expected and differs |
| PrepareRunner.RunPrepare | packages/agent-runtime/src/prepare.ts:597-625 | the whole preparation over the repository: however it ends no commit is lost, local branches move iff it clobbers one; on success it landed as `LandedOn` says, and notes and events tell what was found; it is refused iff the URL or a branch name is |
| PrepareProofs.CloneOrFetchKeeps | packages/agent-runtime/src/prepare.ts:275-301 | cloning or refreshing keeps every local branch and commit and moves no HEAD |
| PrepareProofs.ResumeKeeps | packages/agent-runtime/src/prepare.ts:490-503 | resuming moves only HEAD, and reports the two tips it leaves |
| PrepareProofs.ResumeReportsExactly | packages/agent-runtime/src/prepare.ts:428-503 | a resumed branch is reported on iff the two tips differ |
| PrepareProofs.CreateKeeps | packages/agent-runtime/src/prepare.ts:457-476 | creating keeps the history, and the branches iff its reset moves none |
| PrepareProofs.SwitchKeeps | packages/agent-runtime/src/prepare.ts:527-541 | putting the work branch in place moves or deletes a local branch iff it clobbers one |
| PrepareProofs.PrepareKeepsLocalWork | packages/agent-runtime/src/prepare.ts:597-625 | on success and on failure at any command no commit is lost, and a local branch moves iff `rev-parse` failed on a branch that exists and the reset took effect |
| PrepareProofs.ReachableStaysReachable | packages/agent-runtime/src/prepare.ts:597-625 | so what was reachable from a local branch stays reachable from it |
| PrepareProofs.PrepareLands | packages/agent-runtime/src/prepare.ts:574-625 | on success HEAD is on the work branch at its local tip, which is what is reported, or detached at a base that is only a tag |
| PrepareProofs.DetachedExactly | packages/agent-runtime/src/prepare.ts:527-541 | a successful preparation ends detached iff base and work branch are one name that is no local branch of the refreshed workspace and names a commit otherwise |
| PrepareProofs.TagLandsDetached | packages/agent-runtime/src/prepare.ts:275-301 | cloning a tag as base and work branch succeeds and reports `HEAD` as the branch |
| PrepareProofs.OnceInPlace | packages/agent-runtime/src/prepare.ts:556-625 | once the branch is in place and nothing fails any more, preparation succeeds iff HEAD names a commit |
| PrepareProofs.SecondRunSame | packages/agent-runtime/src/prepare.ts:597-625 | a second successful run reports the same head and branch and moves no branch, whatever the remote did, unless it clobbers |
| PrepareProofs.FaultFreeCreation | packages/agent-runtime/src/prepare.ts:361-391 | without faults a new work branch is put in place iff its name stands for something at the remote or `ls-remote` answers for no branch, and then starts at what the name stands for |
| PrepareProofs.CreatedWherePublished | packages/agent-runtime/src/prepare.ts:457-476 | a new work branch starts where the remote has it iff the remote has no tag of that name on another commit |
| PrepareProofs.KilledProbeMovesBranch | packages/agent-runtime/src/prepare.ts:337-347 | any workspace whose work branch is not where the remote has it loses its commits to a `rev-parse` that is killed |
| PrepareProofs.KilledProbeSucceeds | packages/agent-runtime/src/prepare.ts:337-347 | and such a preparation can report success |
| PrepareReports.ReportsWhatItFound | packages/agent-runtime/src/prepare.ts:550-621 | on success the notes are the divergence of the two tips as left, if the branch was resumed and is published, then the moved HEAD, if one was expected; the events are the refresh or clone, where it landed, each note, and the end, in order |
| PrepareReports.NotesExactly | packages/agent-runtime/src/prepare.ts:490-586 | a note about the branch iff it was resumed and its published counterpart is at another commit; one about HEAD iff another commit was expected |
| PrepareReports.RefusesExactly | packages/agent-runtime/src/prepare.ts:282-285 | refused, with nothing done, iff the URL or a branch name is; no repository iff none answers and cloning was not asked for |
| PrepareReports.AcceptedNamesArePlain | packages/agent-runtime/src/prepare.ts:231-241 | no accepted branch name begins with a dash, or holds what git reads as a refspec, a revision or a second word |
| PrepareReports.FaultFreePreparation | packages/agent-runtime/src/prepare.ts:597-625 | without faults a preparation succeeds iff the repository can be had and the work branch put in place, both read off the workspace and the remote |
| PrepareReports.CreatedFromHead | packages/agent-runtime/src/prepare.ts:457-466 | a work branch that is new everywhere starts at HEAD; it starts at the base branch, as is reported, iff HEAD is there |
| TurnEvents.OneEndAndLast | packages/agent-runtime/src/loop.ts:212-215 | in a sound log only the last event can be terminal, and a delivered one is seen as such |
| TurnEvents.NumbersCountUp | packages/agent-runtime/src/loop.ts:374-383 | in a sound log steps and known calls are numbered 1, 2, 3, … |
| TurnEvents.MessagesInOrder | packages/agent-runtime/src/loop.ts:508-514 | the messages seen are those of the log, in order |
| TurnEvents.OutputInsideItsCall | packages/agent-runtime/src/loop.ts:190-199 | output appears only after its own call, with nothing but that call's output and heartbeats between |
| TurnEvents.ResultClosesItsCall | packages/agent-runtime/src/loop.ts:390-413 | a result closes its own call, and what is kept of the two is the output between them, piece by piece |
| TurnEvents.NoneBeginsAborted | packages/agent-runtime/src/loop.ts:438-446 | in a sound log no step and no call begins once the signal is up |
| TurnEvents.LostLines | packages/agent-runtime/src/loop.ts:149-161 | a line is seen as lost iff one that is waited for was not accepted; heartbeats, output and pieces of text are not waited for in that sense |
| TurnConversation.AnswerHoldsEveryCall | packages/agent-runtime/src/loop.ts:241-290 | a stream answers only if it ran out without an error and reported its usage, and then with every call it asked for, in order |
| TurnConversation.AnswerSpeaks | packages/agent-runtime/src/loop.ts:256-264 | the text of an answer is the last final text of the stream and what was streamed after it |
| TurnConversation.AnswerCharges | packages/agent-runtime/src/loop.ts:273-289 | its usage is the one reported last |
| TurnConversation.StepIsBounded | packages/agent-runtime/src/loop.ts:302-323 | a step makes at most 4 provider calls, and waits 1000, 2000 and 4000 ms between them, at most 7000 in all |
| TurnConversation.CallsArePaired | packages/agent-runtime/src/loop.ts:414-419 | every call item says what was asked and is followed by its own redacted result, and every result follows its call |
| TurnConversation.RenderReadsBack | packages/agent-runtime/src/loop.ts:414-514 | from the conversation every call that ran, with its name and arguments, and every message of the model can be read, in order |
| TurnConversation.ShownInOnePiece | packages/agent-runtime/src/loop.ts:397-404 | what a tool did not stream is shown in one piece, on stderr iff it did not succeed |
| TurnConversation.KeepsExchange | packages/agent-runtime/src/loop.ts:414-419 | adding a message or a call keeps the conversation what was given plus what was exchanged, and leaves what every earlier round was shown a prefix of it |
| TurnConversation.KeepsRound | packages/agent-runtime/src/loop.ts:508-509 | a model round keeps the usage the sum over the answers only, and is one more round whose every attempt was shown what was given and all that had been exchanged by then |
| TurnConversation.CallIsOfARound | packages/agent-runtime/src/loop.ts:302-323 | every provider call is an attempt of a round |
| TurnConversation.RoundMakesCalls | packages/agent-runtime/src/loop.ts:302-323 | and every attempt of a round is a provider call |
| TurnConversation.ReflectsRan | packages/agent-runtime/src/loop.ts:366-421 | after a call the channel still shows every known call with its own result and output, the tools have run what was exchanged, and a push calls for one look at the work tree |
| TurnConversation.OwesRan | packages/agent-runtime/src/loop.ts:432-447 | serving the next call in order leaves the rest pending |
| TurnConversation.MinutesAreNearest | packages/agent-runtime/src/loop.ts:457-457 | the minutes of the limit are the nearest whole ones, a half rounded up |
| TurnConversation.NotesReadBack | packages/agent-runtime/src/loop.ts:566-576 | what preparation found is one system item whose lines are the heading and one line for each note, in order |
| TurnLoop.Turn.constructor | packages/agent-runtime/src/loop.ts:566-602 | a turn starts from the request's items and one system item for the notes, if any |
| TurnLoop.Turn.Emit | packages/agent-runtime/src/protocol.ts:99-106 | an awaited event enters the log once, followed by nothing but heartbeats, and by nothing once the timer is off |
| TurnLoop.Turn.EmitTerminal | packages/agent-runtime/src/loop.ts:212-215 | nothing follows the event that ends the turn |
| TurnLoop.Turn.Consume | packages/agent-runtime/src/loop.ts:241-290 | an attempt is listened to up to its first error and says what its stream says, unless a lost line intervenes; it is cancelled iff the signal is up once the stream has run out, so an error event wins over an abort; the text of every delta it heard was streamed on |
| TurnLoop.Turn.StreamAttempt | packages/agent-runtime/src/loop.ts:245-253 | the call that is on record was shown the conversation as it stood, and what it brought belongs to it |
| TurnLoop.Turn.RunModelStep | packages/agent-runtime/src/loop.ts:302-323 | only rate limits are retried, at most three times and while the signal is down, each attempt shown the conversation as it stands; the calls, the waits and the text streamed on are those of the round, and a step is cancelled only if the signal is up |
| TurnLoop.Turn.Execute | packages/agent-runtime/src/loop.ts:384-389 | a tool runs once, on the call it was asked for, and every piece it streams is shown with that call; an unknown tool fails without streaming, and execution never raises |
| TurnLoop.Turn.MaybeEmitGitPushed | packages/agent-runtime/src/loop.ts:336-352 | the work tree is looked at iff the result looks like a push, and announced as it was found |
| TurnLoop.Turn.ShowResult | packages/agent-runtime/src/loop.ts:390-413 | a result is shown with the call it belongs to, its duration, and its output: what it streamed, or else all of it at once |
| TurnLoop.Turn.ExecuteKnown | packages/agent-runtime/src/loop.ts:372-413 | a known call takes the next number and is bracketed by its two events |
| TurnLoop.Turn.RunToolCall | packages/agent-runtime/src/loop.ts:366-421 | a call that ran joins the conversation with its redacted result; one whose line was lost leaves the conversation as it was |
| TurnLoop.Turn.RunToolCalls | packages/agent-runtime/src/loop.ts:432-447 | calls are served in order, all of them unless the signal is up |
| TurnLoop.Turn.AnnounceStep | packages/agent-runtime/src/loop.ts:540-547 | a step begins while the signal is down, on a reading of the clock before the limit, and is counted once its line is delivered |
| TurnLoop.Turn.StopForLimit | packages/agent-runtime/src/loop.ts:456-470 | a limit ends the turn only if all steps are taken or the last reading is at the time limit, as completed, with a message that names the steps, the minutes and the work so far |
| TurnLoop.Turn.RunStep | packages/agent-runtime/src/loop.ts:492-527 | a step goes on with everything served, or ends the turn as the model's answer says |
| TurnLoop.Turn.NextStep | packages/agent-runtime/src/loop.ts:539-552 | an aborted turn is cancelled, one whose time is over stops for the limit, and any other begins the next step |
| TurnLoop.Turn.RunSteps | packages/agent-runtime/src/loop.ts:537-554 | at most `maxSteps` steps, one model round each, until the turn ends; why it ends is `TurnLoop.StopsForAReason` |
| TurnLoop.Turn.Run | packages/agent-runtime/src/loop.ts:584-608 | a turn that returns is concluded and one that raises is interrupted; either way the conversation is kept and the heartbeat is off |
| TurnLoop.Turn.KeptMeans | packages/agent-runtime/src/loop.ts:595-602 | the conversation is what was given and what was exchanged, the usage that of the answers, and every round was shown the conversation as it was |
| TurnLoop.OneOutcome | packages/agent-runtime/src/loop.ts:456-608 | a turn that returned delivered exactly one terminal event, its last, of the returned kind, cancelled only if aborted; steps 1..n; a completion carries n, the usage of the answers and the last message |
| TurnLoop.NoOutcome | packages/agent-runtime/src/loop.ts:584-608 | a turn that raised delivered no terminal event |
| TurnLoop.LostLinesEscape | packages/agent-runtime/src/loop.ts:584-608 | a turn raises iff a line it waits for was lost |
| TurnLoop.StopsForAReason | packages/agent-runtime/src/loop.ts:492-554 | why a turn ended, by the last answer: a failure, an answer without calls and a cancellation end it as such; one that still asks for tools ends it for the limit or by an abort; a limit means all steps taken or a reading at the time limit, and a turn neither aborted nor out of time has taken `maxSteps` steps |
| TurnLoop.BegunInTime | packages/agent-runtime/src/loop.ts:539-547 | every step began while the signal was down, on a reading of the clock before the limit; every call while it was down |
| TurnLoop.ProviderSees | packages/agent-runtime/src/loop.ts:245-253 | whatever the provider was shown, in any call, is what was given and what had been exchanged when the earlier steps were served |
| TurnLoop.TextIsStreamed | packages/agent-runtime/src/loop.ts:254-279 | the text streamed on, and the pieces lost, are those of the provider calls; the calls and the waits are those of the rounds, in order |
| TurnLoop.CallsShown | packages/agent-runtime/src/loop.ts:366-421 | every known call of a concluded turn is in the log with its number, arguments, result and output; the tools ran exactly what was exchanged; each look at the work tree was for a push, and each push that was found is announced, in order |
| TurnLoop.ServedInOrder | packages/agent-runtime/src/loop.ts:432-527 | of what the answers asked for a prefix was said and run, in order, and all of it if nothing is pending |
| TurnLoop.CompletionServesAll | packages/agent-runtime/src/loop.ts:492-554 | a turn that was completed, by the model or for a limit, said and ran all that was asked for |
| EventWriter.StepKeepsChain | packages/agent-runtime/src/protocol.ts:99-106 | every step of the promise chain keeps it a chain, and a write that would be skipped is never reached |
| EventWriter.WritesInEmitOrder | packages/agent-runtime/src/protocol.ts:68-109 | lines are offered to the stream once each, in the order of the emits |
| EventWriter.NeverSkips | packages/agent-runtime/src/protocol.ts:101-104 | a failed write keeps no later one from being attempted |
| EventWriter.OneInFlight | packages/agent-runtime/src/protocol.ts:54-60 | never are two lines in flight |
| EventWriter.NeverStuck | packages/agent-runtime/src/protocol.ts:68-109 | until every line has settled there is a step to take |
| EventWriter.AllWritten | packages/agent-runtime/src/protocol.ts:68-109 | once all lines have settled each was offered exactly once, in order |
| EventWriter.SettlesAsWritten | packages/agent-runtime/src/protocol.ts:83-106 | over all runs, the promise of an emit resolves iff the stream reported success for its own line, and rejects iff it reported an error |
| EventWriter.LastEmittedAt | packages/agent-runtime/src/protocol.ts:94-107 | the time is that of the last successful write, or of the start |
| EventWriter.Channel.EmitEvent | packages/agent-runtime/src/protocol.ts:100-106 | an emit hangs its write on the queue and makes the queue wait for it |
| EventWriter.Channel.WriteDone | packages/agent-runtime/src/protocol.ts:83-97 | the callback means the step `Finish`: it settles the line as its write did, and only a success moves the time |
| TurnCommand.LoopEndsOnce | packages/agent-runtime/src/turn.ts:149-168 | a loop that returned put one delivered terminal line on the channel, last |
| TurnCommand.LoopLosesOrReturns | packages/agent-runtime/src/turn.ts:149-168 | a loop raises iff a line it waits for was lost |
| TurnCommand.Command.ReportFailure | packages/agent-runtime/src/turn.ts:85-97 | an error becomes one line with the code of its class and the exit code that goes with it, or escapes if that line is lost; only the runtime's own are diagnosed |
| TurnCommand.Command.PrepareAndRun | packages/agent-runtime/src/turn.ts:127-168 | the announcement comes first; what it raises is the loss of a line if there was one, else the configuration's or preparation's error, and else it returns, with the loop's own end as the last line |
| TurnCommand.Command.RunRequest | packages/agent-runtime/src/turn.ts:180-220 | the last line is the failure of the first call that raised, or the loop's own end, or after a lost line a runtime failure; one delivered terminal line unless that one is lost; it escapes iff it is, or the removal of the token file raises; the token file is there iff the fates of its five calls leave it; the abort subscription is over; a diagnosis goes with exactly the failing exit codes |
| TurnCommand.Command.MaterializeGitToken | packages/agent-runtime/src/child-env.ts:79-93 | the file is there iff it was or the write took effect; the path is known iff none of the four calls raised |
| TurnCommand.TokenStaysExactly | packages/agent-runtime/src/child-env.ts:79-105 | after any number of turns a token file is left iff it was there or some turn wrote it, and no turn since has known its path and removed it |
| TurnCommand.TokenOutlivesTurn | packages/agent-runtime/src/child-env.ts:79-93 | a failed `chmod` leaves the file behind, and the next turn without a fault takes it away |
| TurnCommand.Command.RunTurnCommand | packages/agent-runtime/src/turn.ts:238-277 | without credentials one failure and exit 1, without a request no line and exit 2, else the request as above; the exit code goes with the last line; lines come in the order announcement, preparation, loop, failure |
| EventStream.DrainInParts | infra/scripts/lib/smoke-openai-events.ts:209-227 | draining a text in two parts is draining it whole |
| EventStream.DecodeFrame | infra/scripts/lib/smoke-openai-events.ts:176-198 | the loop over the lines keeps the last name and payload |
| EventStream.FrameDecoder.Push | infra/scripts/lib/smoke-openai-events.ts:212-225 | a chunk yields the frames of the blocks it completes, and the buffer keeps the rest |
| EventStream.ChunksDoNotMatter | infra/scripts/lib/smoke-openai-events.ts:200-227 | however a text is cut, the frames are those of the whole text |
| EventStream.RoundTrip | apps/web/src/mocks/events.ts:49-53 | encoded frames with heartbeats anywhere between them read back as their names and payloads, in order, with nothing left over |
| EventStream.StreamRoundTrip | infra/scripts/lib/smoke-openai-events.ts:176-227 | the same through any chunks and the decoder |
| SmokeReader.EventRecorder.RecordEvent | infra/scripts/lib/smoke-openai-events.ts:372-412 | an event changes the observation and prints a line as specified |
| SmokeReader.EventRecorder.OnToolResult | infra/scripts/lib/smoke-openai-events.ts:331-341 | a result completes the call that waits for it, or is attributed to an unknown tool |
| SmokeReader.RecorderSeesTheTurn | infra/scripts/lib/smoke-openai-events.ts:295-412 | of a sound turn the recorder learns its steps, every call with its own arguments and result, the length of its text, its last push and its end |
| SmokeReader.ResultNamesItsTool | infra/scripts/lib/smoke-openai-events.ts:331-412 | the line a result prints names the tool of the call it closes |
| SmokeReader.StopsAtTheFirst | infra/scripts/lib/smoke-openai.ts:88-111 | reading stops with the first terminal or expired frame, and nothing later is recorded or printed |
| SmokeReader.GoesOnWithout | infra/scripts/lib/smoke-openai.ts:88-111 | without such a frame it does not stop |
| SmokeReader.PrintsEachInOrder | infra/scripts/lib/smoke-openai.ts:94-109 | until then every frame but streamed text, output and heartbeats prints one line about it, in order |
| SmokeReader.SmokeCheck.ConsumeChunk | infra/scripts/lib/smoke-openai.ts:88-111 | a chunk feeds exactly the frames it completes |
| SmokeReader.SmokeCheck.ConsumeFrame | infra/scripts/lib/smoke-openai.ts:94-109 | a frame is recorded and printed as specified, or is the reason to stop |
| SmokeReader.SmokeCheck.ReadStream | infra/scripts/lib/smoke-openai.ts:128-176 | what is recorded, printed and returned depends only on the concatenated text and on whether the deadline passed, which replaces the verdict; the reader is cancelled iff it stopped by itself |
| SmokeReader.TurnIsObserved | infra/scripts/lib/smoke-openai.ts:128-176 | a stream that carries a sound turn among announcements, preparation and protocol errors, with heartbeats anywhere, is observed as the turn happened, and the reading ends iff the turn did |
| SseResponse.CompareTurns | apps/web/src/shared/transcript/reducer.ts:50-70 | comparing the other way round turns the sign, and an id equals itself |
| SseResponse.IdsSortByTime | apps/web/src/shared/transcript/reducer.ts:50-63 | ids as they are written sort by their time, and of one time by their number |
| SseResponse.ResumeIsExact | apps/web/src/mocks/events.ts:66-68 | with increasing ids, resuming after a delivered id leaves exactly the frames after it |
| SseResponse.ResumesExactly | apps/web/src/mocks/events.ts:66-68 | a script can be resumed after each of its frames iff its ids increase |
| SseResponse.ScriptedIdsIncrease | apps/web/src/mocks/events.ts:155-163 | the ids a script gives its frames, one millisecond apart, increase, so every scripted stream can be resumed anywhere |
| SseResponse.NeighboursSuffice | apps/web/src/shared/transcript/reducer.ts:50-63 | for ids of the expected shape it is enough that each sorts before the next |
| SseResponse.MixedShapesCircle | apps/web/src/shared/transcript/reducer.ts:50-70 | the fallback to plain text, which no scripted id meets, does not order ids: three can each sort before the next, in a circle |
| SseResponse.CirclesLoseAFrame | apps/web/src/mocks/events.ts:66-68 | of three frames whose ids go round in a circle a resume loses one |
| SseResponse.SseStream.constructor | apps/web/src/mocks/events.ts:62-120 | a stream starts with the remaining frames and the first of them scheduled, or closed at once if aborted or if there are none |
| SseResponse.SseStream.DelayOver | apps/web/src/mocks/events.ts:106-118 | the scheduled frame is delivered and the next one scheduled, in script order; the stream closes iff it has delivered all |
| SseResponse.SseStream.Beat | apps/web/src/mocks/events.ts:102-104 | a heartbeat changes no frame |
| SseResponse.SseStream.Finish | apps/web/src/mocks/events.ts:87-94 | closing stops both timers, and closing twice is harmless |
| SseResponse.ResumedStreamReads | apps/web/src/mocks/events.ts:62-134 | a reader that resumes after a frame is handed exactly the frames after it, with heartbeats anywhere and the text cut anywhere |
| Redactor.UsableValues | packages/agent-runtime/src/redact.ts:59-67 | exactly the values of usable length, each once, longest first |
| Redactor.SplitJoins | packages/agent-runtime/src/redact.ts:120-129 | splitting at a value and joining with the token replaces its occurrences from the left |
| Redactor.RedactText | packages/agent-runtime/src/redact.ts:125-129 | the loop replaces value after value |
| RedactorProofs.ReplaceAround | packages/agent-runtime/src/redact.ts:125-129 | replacing a value that cannot overlap the token leaves tokens alone and treats the text on either side on its own |
| RedactorProofs.PlainIsClear | packages/agent-runtime/src/redact.ts:59-67 | a value without brackets that does not lie inside the token cannot overlap it |
| RedactorProofs.Decomposition | packages/agent-runtime/src/redact.ts:125-129 | the text is kept pieces and cut words, each word a value and no piece holding one, and the output is the same with the token for each word |
| RedactorProofs.OutputIsClean | packages/agent-runtime/src/redact.ts:38-38 | the output holds no registered value |
| RedactorProofs.PassIsIdempotent | packages/agent-runtime/src/redact.ts:38-38 | a second pass changes nothing |
| RedactorProofs.OccurrencesAreCut | packages/agent-runtime/src/redact.ts:50-59 | longest first: every occurrence of a value meets a cut word that is no shorter |
| RedactorProofs.SurvivesExactlyIfLeaky | packages/agent-runtime/src/redact.ts:125-129 | any value survives its own redaction in some text iff it agrees with the token at an offset before which it does not begin sooner |
| RedactorProofs.CleanExactlyIfClear | packages/agent-runtime/src/redact.ts:125-129 | of the values that do not begin like the token, exactly those that cannot overlap it never survive |
| RedactorProofs.CleanInCompanyExactlyIfClear | packages/agent-runtime/src/redact.ts:59-67 | registered with any others that cannot overlap the token, a value is never left iff it cannot overlap it either |
| RedactorProofs.HiddenOverlap | packages/agent-runtime/src/redact.ts:125-129 | a value that overlaps the token and still never survives alone: `[REabcde[RE` |
| RedactorProofs.ValueInsideToken | packages/agent-runtime/src/redact.ts:59-67 | a usable value inside the token survives, and each pass changes the text again |
| PushDetector.SegmentPushes | packages/agent-runtime/src/git-events.ts:75-89 | the scan finds the first word after `git` that is neither an option nor the value of one |
| PushDetector.CommandPushes | packages/agent-runtime/src/git-events.ts:101-103 | a command is reported iff one of its segments is |
| PushDetector.ScanFits | packages/agent-runtime/src/git-events.ts:75-89 | whatever the scan accepts fits the grammar |
| PushDetector.FitsScan | packages/agent-runtime/src/git-events.ts:75-89 | whatever fits the grammar is accepted |
| PushDetector.DetectionIsGrammar | packages/agent-runtime/src/git-events.ts:65-103 | a command is reported iff the words of one of its segments are a prefix without git, git, a run of options with their values, and push |
| PushDetector.DetectionSplits | packages/agent-runtime/src/git-events.ts:101-103 | detection of two commands with a separator between them is detection of either |
| PushDetector.SegmentsCut | packages/agent-runtime/src/git-events.ts:13-20 | no segment holds a separator |
| PushDetector.WordsCutAtGaps | packages/agent-runtime/src/git-events.ts:22-23 | words and runs of whitespace alternate to spell the segment |
| PushDetector.BannerIsALine | packages/agent-runtime/src/git-events.ts:25-26 | the banner is found iff some line of the output begins with it |
| PushDetector.DetectedExactly | packages/agent-runtime/src/git-events.ts:111-119 | a command is taken for a push iff it exited with 0 and a segment fits the grammar, or the output has such a line and an arrow between spaces |
| PushDetector.PushIsDetected | packages/agent-runtime/src/git-events.ts:25-29 | what git prints of a push is detected, whatever precedes and follows it |
| RepoUrl.PatternIsTwoSegments | packages/agent-runtime/src/prepare.ts:63-64 | the workspace's pattern accepts exactly two segments after a slash; its optional suffix adds nothing |
| RepoUrl.PlainFitsPattern | packages/core/src/repo-url.ts:135-149 | a path the API accepts fits the workspace's pattern |
| RepoUrl.RulesDifferAtGit | packages/core/src/repo-url.ts:140-147 | on paths with a leading slash the two rules differ exactly where the repository is named `.git` |
| RepoUrl.AllowedIsResolvedExactly | packages/core/src/repo-url.ts:220-226 | a URL the API accepts is on an allowed origin, and the workspace of that origin clones it as parsed iff it parses without credentials |
| RepoUrl.HostFollowsHidesNothing | packages/core/src/repo-url.ts:47-57 | with a host right after `://` the authority that is parsed holds an `@` only if the one that is searched does |
| RepoUrl.AllowedIsResolved | packages/core/src/repo-url.ts:220-226 | with a host right after `://` a URL the API accepts is accepted by the workspace of one of the allowed origins, and cloned as parsed |
| RepoUrl.ResolvedIsPlainOrGit | packages/agent-runtime/src/prepare.ts:181-222 | for plainly written text the workspace accepts what parses on its origin without credentials and fits the API's shape rule or names a repository `.git` |
| RepoUrl.EntryMeans | packages/core/src/repo-url.ts:195-205 | an entry of the allow-list authorises an origin iff what follows its scheme is bare and parses; the origin is that of the scheme it spells, or of https, and its host |
| RepoUrl.ListedIsAllowed | packages/core/src/repo-url.ts:220-226 | every repository on a listed host is admitted, unless it is named `.git` |
| RepoUrl.ThirdSlashHidesCredentials | packages/core/src/repo-url.ts:47-57 | a text whose credentials the API's rule does not see and the workspace refuses |

## Left out

- RotationProofs.SalvageRecovers: assumes, as the script does, that one rotation runs at a time, and that no stored secret is empty; the other direction is `FaultFreeRotation`.
- PortBaseProofs.QuietRunsExclude: a condition on the environment that is only sufficient; the exact one is that no hazard is met (`PortBaseExact.ExactlyTheHazardFreeRuns`).
- PortSweep.PortAllocator.ReservePortBase: one process with nobody else running; with others the claims are those of the interleaved machine.
- TurnLoop.Turn.Run: when the heartbeat is due is not modelled, only that it may fire while armed; arguments of calls stay raw text; which of an abort and an error event comes first is left to the provider.
- TurnLoop.Turn.StopForLimit: the clock may show any time at each reading, so the limit is said in readings, not in durations.
- TurnLoop.Turn.StreamAttempt: of a provider request the conversation is modelled, not the model, the instructions and the tool definitions, which are the same in every call.
- TurnCommand.Command.RunTurnCommand: preparation is any run of progress lines with a given end; `Prepare` models it command by command. The wording of diagnoses is not part of this model.
- SmokeReader.SmokeCheck.ReadStream: when the deadline passes is given; chunks are text, so the streaming UTF-8 decoder is not part of this model.
- SmokeReader.EventRecorder.RecordEvent: says which event a line is about, not its wording; of a call the arguments are recorded, from which the source reads the path or command it lists.
- SseResponse.ResumeIsExact: ids are numbers of any size, where the code compares them as doubles.
- RedactorProofs.CleanInCompanyExactlyIfClear: speaks of values that lack some character the token lacks too, and lets every other registered value be clear; which sets of values that overlap the token are safe together is not characterised.
- RedactorProofs.OutputIsClean: the shape patterns that run after the exact values are not part of this model, nor is the redaction of event fields.
- RepoUrl.AllowedIsResolved: URL parsing is a parameter; `LikeUrl` and `ReadsPlainPaths` state what is assumed of it.
- PrepareProofs.PrepareKeepsLocalWork: uncommitted edits, the wording of messages, a clone that leaves a partial directory, failures to create the workspace directory, and names that local git commands resolve in more than one way (a local branch named like a path below `refs`) are not part of this model; of the remote's refs only branches and tags are.
- RotationScriptProofs.NoSecretIsLost: one run at a time, which the script's lock and its refusals are for; a helper that outlives its script, and a key or record file that is cut short, are not part of this model.
- Master-key parsing, the rotation's log lines, and the doctor that reads its result.
- The web interface, the scheduler, garbage collection, the worker's processors and the database schema: they call the modelled parts or hold no protocol of their own.
- Prisma, Redis, Docker, the OpenAI client, the file system and process spawning: only their interfaces, as fates and free choices.
