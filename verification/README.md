# Code executor API: session protocol, files, paths and results

A Dafny model of the service that runs user code in containers, each run working in a session
directory kept on the host, with proofs of what its most delicate parts promise. It needs
Dafny 4.11; `dafny verify dfyconfig.toml` checks all of it.

Four parts:

- **The session lifecycle.** Requests, the idle sweeper and directory removals in worker threads
  interleave on one event loop wherever the service awaits. `Protocol` is that transition system: one
  action per await-free block, with lock timeouts, slot timeouts, failures and task cancellation as
  actions of their own. `ManagerModel` gives the effect of every block on the manager's state;
  `SessionManager` has the same blocks as methods that assign fields, each proved to have that effect and
  to keep the conservation of project ids and the session limit (`SessionManager.SessionManager.Valid`).
  `ProtocolInvariant` and `ProtocolSteps` hold one inductive invariant, `ProtocolEffects` says exactly what
  every step does to locks, stamps, queues and files. `ProtocolSafety`, `ProtocolUse` and `ProtocolLiveness`
  state what that means for every run: serial execution in lock-grant order, no use of a retired session,
  conservation of project ids and slots, locks and slots first come first served, sweep soundness and
  completeness over when sessions were used, absence of deadlock and of endless activity.
- **Writing files.** `FileTree` is a file system of inodes and what it looks like from a session's root;
  `Kernel` the system calls on it, any of which may fail, with executed code free to rearrange the
  session's tree before each. `SessionFiles` is the descriptor-by-descriptor walk and the
  stage/commit/discard protocol, `Uploads` the staging block of `handle_execute`.
- **Names.** `Paths` is the normalisation of a path against the walk it describes; `Disposition` prints
  the `Content-Disposition` header and parses it back by section 4.1 of RFC 6266 and section 3.2.1 of
  RFC 5987, with UTF-8 from section 3 of RFC 3629 in `Utf8`.
- **Results.** `Scan` is the stack-driven traversal against a recursive reading of the tree and against
  the inodes of `FileTree`, `Changes` the difference of two snapshots, `Attachments` the attached/omitted
  split, `Streams` the size-capped copy loops, `PtyDrain` the drain of the terminal in its own thread,
  `Removal` the unlocking pass and removal of a directory tree.

How the file results are stated. A `Kernel` is either `quiet`, and then methods say exactly what every
path of the tree stands for afterwards; or executed code runs alongside, and then they say that every
directory descriptor used is of a directory of the session (each call on one requires `Inside`), that no
inode of anyone else has changed (`Kernel.Kernel.Valid` against the constant `foreign`), and which
descriptors are open. Calls that fail although the tree gives no reason are counted in `faults`. Two kinds
are counted apart: those that undoing a write consists of, opening its directory again and unlinking
(`Trouble`), because a hidden file may be left over only if one of these failed, whatever else did; and the
wrappings cancelled when their thread had started (`Sharing`), because only these give a descriptor a second
owner.

Assumptions, each a guard of an action or a parameter in the model:

- Session ids, directory names and random temporary names are fresh: an id nobody has used
  (`Protocol.Unheard`), a temporary name no path of the request contains (`Uploads.FreshNames`).
- Clients learn a session's id only from the answer to the request that made it, and seed files are
  written before that (code_executor_api/routes/sessions.py:35-50).
- A session still in `create` does not become idle: the bounded `xfs_quota` calls take less time than the
  inactivity timeout (`Protocol.TickEnabled`).
- A container that timed out, or whose request was cancelled, is gone before that request leaves the
  session lock (code_executor_api/executor/podman_executor.py:242-252): the forced removal succeeds.
- `asyncio.Lock` and `asyncio.Semaphore` are a holder or a count with a first-come-first-served queue. A
  release and the wake-up of the next waiter are separate actions, as are the sweeper's steps and those
  of its deletion task, so the model has at least the interleavings of the event loop.
- The removal of a tree has a descriptor and a stack frame for every level of it, which `os.fwalk` and
  `shutil.rmtree` take, and its calls fail only for want of permission bits; a tree some thousand levels deep
  is not removed by the code.
- Closing a descriptor of a directory, or of a file open for reading, does not fail; closing a file that
  was written to may.

Where code and comments differ, the model follows the code: the failure path of `create`
(code_executor_api/sessions.py:411-419) frees the project id before the directory is removed, so the rule
that an id is held back until its files are gone is kept by `_delete` only, and `ProtocolSafety.FreedExactly`
names both ways in which an id becomes free; and a second cancellation
of the sweep reaches the shielded deletion itself (code_executor_api/sessions.py:481-486), after which the
session is popped and its id held back while the worker thread may still run. `read_max_and_close` is
documented to drain the terminal until the container exits, but it looks at the flag only after a `select`
that came back empty, so output that arrives between the two, with the flag set behind it, is never read
(`PtyDrain.OutputLost`); `PtyDrain.DrainExact` says exactly when that happens. And the `except` of
`write_file_to_temp` closes the descriptor (code_executor_api/file_helpers.py:100-106) although, if the task
was cancelled after `aiofiles.open` had started its thread, a file object that owns the same descriptor is
being made there and closes it again: `Kernel.Kernel.ClosedOnce` says that a descriptor is closed
once, or twice if this happened to it.

## Model

| member | source | states |
|---|---|---|
| ManagerModel.ProjectIdsUnshared | code_executor_api/sessions.py:384-395 | when ids are conserved, two registered sessions never have the same project id |
| ManagerModel.CreatedConserves | code_executor_api/sessions.py:397-408 | reserving a session keeps the ids handed out the disjoint, duplicate-free union of owned, free and held-back ones, and never hands out an owned or held-back id; the session has an id, and an unused one, exactly if there are quotas |
| ManagerModel.ReleasedConserves | code_executor_api/sessions.py:411-433 | the same for undoing a create and for a deletion, whether or not the tree could be removed |
| SessionManager.SessionManager.AllocateProjectId | code_executor_api/sessions.py:384-391 | the most recently freed id, else a new one, and a refusal exactly when the range is exhausted, with nothing changed |
| SessionManager.SessionManager.ReleaseProjectId | code_executor_api/sessions.py:393-395 | the id joins the free list and belongs to nobody; without an id nothing happens |
| SessionManager.SessionManager.Create | code_executor_api/sessions.py:397-408 | refused exactly at the session limit or when ids have run out, leaving the state alone; else the new session is registered before the first await, the limit kept and the ids conserved |
| SessionManager.SessionManager.Register | code_executor_api/sessions.py:405-408 | a fresh session object is filed under its id, unlocked, and nothing else changes |
| SessionManager.SessionManager.CreateFailed | code_executor_api/sessions.py:411-413 | the session is unregistered and its id free again, the ids still conserved |
| SessionManager.SessionManager.RemovalOver | code_executor_api/sessions.py:421-433 | the session is unregistered in every case; its id is free again only if the tree was removed, else held back; the ids are still conserved |
| SessionManager.SessionManager.CallLocked | code_executor_api/sessions.py:440-443 | not found exactly if unregistered; the lock is taken exactly if free with nobody queued, else the caller is last in the queue |
| SessionManager.SessionManager.Granted | code_executor_api/sessions.py:443 | the first waiter, and no other, gets the released lock |
| SessionManager.SessionManager.Recheck | code_executor_api/sessions.py:447-455 | passes exactly if the same session is still registered, and sets its stamp to the time; otherwise the lock is released again and the stamp stays |
| SessionManager.SessionManager.Release | code_executor_api/sessions.py:454-455 | the lock is free, the queue as it was |
| SessionManager.SessionManager.StopWaiting | code_executor_api/sessions.py:443-445 | a waiter that times out or is cancelled leaves the queue, the order of the others unchanged |
| SessionManager.SessionManager.SweepCheck | code_executor_api/sessions.py:473-477 | the sweeper goes on to delete exactly if the session is registered and idle for longer than the timeout, and otherwise lets the lock go |
| SessionManager.SessionManager.CallSlot | code_executor_api/sessions.py:458-460 | a slot is taken exactly if one is left and nobody queues, else the caller is last in the queue |
| SessionManager.SessionManager.SlotGranted | code_executor_api/sessions.py:460 | the first in the queue takes the slot that became free |
| SessionManager.SessionManager.SlotTimedOut | code_executor_api/sessions.py:461-462 | the caller leaves the queue and no slot is lost |
| SessionManager.SessionManager.ReleaseSlot | code_executor_api/sessions.py:463-466 | one more slot is left |
| ProtocolInvariant.InitInv | code_executor_api/sessions.py:371-376 | a freshly started service meets the invariant |
| ProtocolInvariant.EventRuns | code_executor_api/routes/execute.py:49-125 | one more step of the body inside the lock extends the serial execution by just that step |
| ProtocolInvariant.ExitStep | code_executor_api/sessions.py:454-466 | leaving `locked`, with or without a slot or a place in its queue, disturbs no other task and no other session |
| ProtocolInvariant.RetireStep | code_executor_api/sessions.py:421-437 | the end of a deletion, heard of or cancelled, disturbs no other task |
| ProtocolSteps.EnterInv | code_executor_api/sessions.py:446-452 | being granted a lock keeps the invariant, whether the session is still there, gone, or about to be deleted |
| ProtocolSteps.UndoInv | code_executor_api/sessions.py:411-418 | a failed or cancelled quota setup keeps the invariant |
| ProtocolSteps.RetireInv | code_executor_api/sessions.py:421-437 | the end of a deletion keeps the invariant, the worker thread finished or not |
| ProtocolSteps.CancelInv | code_executor_api/sessions.py:410-466 | cancelling a task wherever it is suspended keeps the invariant |
| ProtocolSteps.SweepingInv | code_executor_api/sessions.py:468-492 | every step of the sweeper and its deletion task keeps the invariant, cancellation included |
| ProtocolSteps.StepInv | code_executor_api/sessions.py:397-492 | every enabled action of requests, sweeper, worker threads and clock keeps the invariant; held ids stay held, retired sessions retired, and no removal starts twice |
| ProtocolSafety.RunInv | code_executor_api/sessions.py:397-492 | every state of every run meets the invariant |
| ProtocolSafety.RunExtends | code_executor_api/sessions.py:397-492 | every enabled action is defined in every reachable state |
| ProtocolSafety.NoUseAfterRetirement | code_executor_api/sessions.py:439-455 | whoever is inside `locked` holds the lock of a session still registered, nobody else is inside, and its directory is under removal only if that very task is deleting it |
| ProtocolSafety.SerialInGrantOrder | code_executor_api/sessions.py:439-455 | for every session ever made, its bodies did and saw what they do and see running one after another in grant order, and until somebody starts to remove them the files are what that leaves |
| ProtocolSafety.TurnsRunAlone | code_executor_api/routes/execute.py:49-125 | each body starts from what those before it left and ends where its own events lead |
| ProtocolSafety.SawOwnTree | code_executor_api/routes/execute.py:105-125 | an observation, such as a snapshot, is of the tree made by the body's own earlier steps |
| ProtocolSafety.ProjectIdsConserved | code_executor_api/sessions.py:384-433 | in every reachable state the ids are conserved, and no two registered sessions share one |
| ProtocolSafety.LimitsHold | code_executor_api/sessions.py:397-466 | registered sessions never exceed the session limit, nor running bodies the execution limit |
| ProtocolSafety.MakersLeaveNothing | code_executor_api/routes/execute.py:45-159 | a request that made a session and has ended has unregistered it, unless its client has the id, it was cancelled, or its delete timed out behind the sweeper |
| ProtocolSafety.UnpublishedIsPrivate | code_executor_api/routes/sessions.py:20-50 | until the answer is given only the request that made a session deals with it |
| ProtocolSafety.SweepSound | code_executor_api/sessions.py:468-492 | whatever the sweeper is deleting it has locked and, while it is not through, is registered, and its stamp is older than the timeout at the start of the pass; what that says about use is `ProtocolUse.SweptWasIdle` |
| ProtocolSafety.SweepComplete | code_executor_api/sessions.py:468-492 | a session the sweeper began to delete is unregistered when its uncancelled pass ends |
| ProtocolSafety.SweepDeletesIdle | code_executor_api/sessions.py:468-492 | so is every session whose lock the sweeper obtained and which then met the age test |
| ProtocolSafety.NothingComesBack | code_executor_api/sessions.py:421-433 | a held-back id is never handed out again, a retired session never registered again, a removal never started again |
| ProtocolSafety.DeletionSettlesId | code_executor_api/sessions.py:421-437 | whoever runs the deletion, a request or the sweeper, and however it ends, cancelled or not: the session is unregistered and its id free exactly if the tree was removed and the deletion was there to hear of it, else held back |
| ProtocolSafety.UnconfirmedIdNeverReturns | code_executor_api/sessions.py:421-492 | if a step of a run ends a deletion, by a request or the sweeper, without a confirmed removal, then in no later state of the run does the id belong to a session or to the free list |
| ProtocolSafety.FreedExactly | code_executor_api/sessions.py:384-433 | a step puts an id on the free list exactly if it undoes the create of the session that has it, or ends its deletion having heard that the tree is gone |
| ProtocolEffects.OthersKeepFiles | code_executor_api/sessions.py:439-455 | apart from the steps on files, a step leaves the files of every session alone, and adds a turn, at the end and under the name of the request, exactly for a request that comes to be inside to run its body |
| ProtocolEffects.BodyChanges | code_executor_api/routes/execute.py:49-125 | a change by a body is made to the files as they are and recorded as the next event of the body's own, last turn; all other sessions stay |
| ProtocolEffects.BodyLooks | code_executor_api/routes/execute.py:105-125 | what a body sees is the files as they are, and is recorded in the same way |
| ProtocolEffects.SeedChanges | code_executor_api/routes/sessions.py:35-50 | seed files become what the session is made with |
| ProtocolEffects.RemovalErases | code_executor_api/sessions.py:159-178 | a removal only takes files away, of its own session |
| ProtocolEffects.SlotsInTurn | code_executor_api/sessions.py:458-466 | whoever comes to have an execution slot was first in the queue, or came when nobody queued and one was left |
| ProtocolEffects.BehindIsTheSweeper | code_executor_api/sessions.py:439-445 | a request is marked as queueing behind the sweeper exactly if the sweeper had the lock or queued for it when the request came to queue |
| ProtocolUse.StepStamps | code_executor_api/sessions.py:405-452 | a step sets the stamp of a session to the time exactly if it makes the session or lets a request inside, and leaves it alone otherwise |
| ProtocolUse.StampIsLastUse | code_executor_api/sessions.py:405-452 | in every reachable state the stamp of a session is the time of the last step that used it |
| ProtocolUse.SweptWasIdle | code_executor_api/sessions.py:468-492 | while the sweeper deletes a session, its pass began longer than the timeout after every step that used the session, the making of it and every entry into `locked` |
| ProtocolUse.EveryoneIsTried | code_executor_api/sessions.py:470-472 | every session registered at the beginning of a whole pass is tried before its end |
| ProtocolUse.PassDealsWith | code_executor_api/sessions.py:468-492 | such a session is unregistered at the end, or its lock was found taken and given up, or the sweeper had the lock and found it gone or used within the timeout before the pass |
| ProtocolUse.CancelledSweepStops | code_executor_api/sessions.py:480-486 | after a cancellation the sweeper begins nothing more; at most the deletion it was at goes on, and then it stops |
| ProtocolUse.FirstComeFirstServed | code_executor_api/sessions.py:440-445 | of two that wait for a lock the one that came first stays first, and the other does not get it before |
| ProtocolUse.SlotsFirstComeFirstServed | code_executor_api/sessions.py:457-466 | the same of execution slots |
| ProtocolUse.MarkedWasCancelled | code_executor_api/sessions.py:410-466 | a request marked as cancelled was cancelled |
| ProtocolLiveness.Progress | code_executor_api/sessions.py:439-492 | no deadlock: while anything is under way some step without timeout, failure or cancellation is enabled and leaves less to do |
| ProtocolLiveness.StepLessens | code_executor_api/sessions.py:397-492 | every single enabled step of those kinds leaves less work |
| ProtocolLiveness.StretchIsShort | code_executor_api/sessions.py:397-492 | no endless activity: in any run a stretch without arrivals, sweep timers, cancellations of the sweeper, ticks and discretionary file steps is at most as long as the work left at its start, whatever order the event loop picks, timeouts, failures and cancelled requests included |
| ProtocolLiveness.ExhaustedIsQuiescent | code_executor_api/sessions.py:439-492 | where no step without timeout, failure or cancellation is enabled, nothing is under way |
| ProtocolLiveness.QuiescentReturnsAll | code_executor_api/sessions.py:454-466 | with nothing under way every lock is free, nobody queues and all slots are back |
| ProtocolLiveness.RunsDrain | code_executor_api/sessions.py:439-492 | every run can be continued to such a state by steps of that kind only |
| Paths.JoinOfSplit | code_executor_api/sessions.py:215 | joining what splitting on "/" gives is the string again |
| Paths.SplitOfJoin | code_executor_api/sessions.py:215 | splitting joined slash-free names gives the names again |
| Paths.LeadingSlashesDoNotMatter | code_executor_api/validation.py:32 | stripping leading slashes leaves no root and changes nothing about where a path leads |
| Paths.MachineFollowsWalk | code_executor_api/validation.py:32 | the component stack is where the walk stands, and once above the root it shows ".." at its bottom for good |
| Paths.WalkDepth | code_executor_api/validation.py:26-35 | a walk has a destination exactly when its depth never goes below zero, and ends at that depth |
| Paths.RejectsByText | code_executor_api/validation.py:33 | the tests on the normalised text hold exactly of stacks that begin with ".." |
| Paths.NormalizeIsWalk | code_executor_api/validation.py:26-35 | a NUL-free path gets the names of the place it leads to, and is refused when there is none below the root |
| Paths.NormalizeAccepts | code_executor_api/validation.py:26-35 | accepted if and only if NUL-free, never above the root on the way, and below it at the end |
| Paths.NormalizedIsProper | code_executor_api/validation.py:26-35 | the accepted path splits into non-empty names other than "." and "..", which are those of the walk |
| Paths.NormalizeIsIdempotent | code_executor_api/validation.py:26-35 | normalising again changes nothing |
| Paths.ProperPathIsNormal | code_executor_api/validation.py:26-35 | every path made of proper names is its own normal form |
| Paths.NormalFormNamesThePlace | code_executor_api/validation.py:26-35 | two accepted paths are given one name exactly if they lead to one place |
| Utf8.DecodeOfEncode | code_executor_api/file_helpers.py:129 | encoded text decodes to itself, and exactly the texts without surrogates can be encoded |
| Utf8.EncodeOfDecode | code_executor_api/file_helpers.py:129 | the strict decoder accepts nothing the encoder does not produce |
| Disposition.QuoteBack | code_executor_api/file_helpers.py:129 | percent-encoded octets are read back as the same octets, whatever they are |
| Disposition.QuotedOctet | code_executor_api/file_helpers.py:129 | an unreserved octet stands for itself, any other is escaped with two upper-case hexadecimal digits |
| Disposition.QuotedBack | code_executor_api/file_helpers.py:129-131 | a quoted string without quotes, backslashes and controls is read back up to its own closing quote |
| Disposition.QuotedSpoilt | code_executor_api/file_helpers.py:130-131 | any other text is not what is read back, escapes and all that follows considered |
| Disposition.ParseOfPrint | code_executor_api/file_helpers.py:115-132 | a header is printed exactly for paths without surrogates, and it parses to the intended parameters and no others if and only if the field name needs no escaping |
| Disposition.ClientFinds | code_executor_api/file_helpers.py:112-132 | the parsed header is an attachment with the field name, the exact path, and a plain name that is the path with every character but letters, digits, ".", "_" and "-" replaced by "_", or "attachment" if there is no path |
| Disposition.ClientGetsThePath | code_executor_api/file_helpers.py:115-132 | decoding `filename*` of the parsed header gives the path |
| Disposition.PrintIsInjective | code_executor_api/file_helpers.py:115-132 | different paths or field names never share a header |
| Disposition.HeaderIsOneLine | code_executor_api/file_helpers.py:115-132 | the header is printable ASCII throughout, so no path ends it |
| FileTree.OneStepStaysInside | code_executor_api/sessions.py:226 | a proper name looked up with O_NOFOLLOW in a directory of the session leads to an inode of the session |
| FileTree.OneStepMayLeave | code_executor_api/sessions.py:215-226 | neither half of the defence suffices: with ".." or without O_NOFOLLOW one step may lead outside |
| FileTree.RelinkedLookup | code_executor_api/sessions.py:222-329 | changing one entry of a directory changes what one path leads to, and no other |
| FileTree.RenamedChanged | code_executor_api/sessions.py:329 | a rename moves one file from one path to another and leaves every other path alone |
| FileTree.RewrittenView | code_executor_api/file_helpers.py:64 | writing to a file that has one name changes the contents at that one path only |
| Kernel.NewEntryChanged | code_executor_api/file_helpers.py:98-99 | creating an entry makes something appear at one path that had nothing, under no other name |
| Kernel.RenamedView | code_executor_api/sessions.py:329 | the rename of the model has the effect of `RenamedChanged` |
| Kernel.Kernel.OpenDirectory | code_executor_api/sessions.py:226 | opens what the name stands for only if it is a real directory; otherwise ENOENT exactly if there is nothing, ENOTDIR for what is neither a directory nor a link, and one of ELOOP and ENOTDIR for a link |
| Kernel.Kernel.CreateFile | code_executor_api/file_helpers.py:98-99 | unless the call fails of itself, succeeds exactly if nothing has the name, with a new empty file of one name |
| Kernel.Kernel.Replace | code_executor_api/sessions.py:329 | moves the file, over a file but not over a directory |
| Kernel.Kernel.Unlink | code_executor_api/sessions.py:334 | removes a name that is no directory, and reports which it was when it does not |
| Kernel.Kernel.ClosedOnce | code_executor_api/file_helpers.py:100-106 | a descriptor that is no longer open was closed exactly once, or exactly twice if a cancelled wrapping gave it a second owner |
| Kernel.Kernel.WrapInThread | code_executor_api/file_helpers.py:100-106 | the descriptor gets a second owner exactly if the task is cancelled after the wrapping thread has started, and this is counted |
| SessionFiles.WriteContent | code_executor_api/file_helpers.py:50-65 | stores a prefix of the body never longer than the cap, and all of it exactly when the copy ends well, whatever the chunks |
| SessionFiles.FillAndClose | code_executor_api/file_helpers.py:100-102 | the descriptor is closed however the copy ends, and success means the whole body was stored; it gets a second owner only if the task is cancelled while a thread wraps it |
| SessionFiles.UndoTemp | code_executor_api/file_helpers.py:103-108 | the files are as they were before the hidden file, unless the unlink itself failed |
| SessionFiles.WriteFileToTemp | code_executor_api/file_helpers.py:88-109 | either the whole body is in a new hidden file or the files are unchanged; without failing calls it succeeds exactly if the name was free and the body within the cap; no descriptor gets a second owner but by a cancelled wrapping |
| SessionFiles.PreparePayload | code_executor_api/file_helpers.py:135-153 | the descriptor is the payload's or closed, never both and never neither |
| SessionFiles.Session.Enter | code_executor_api/sessions.py:219-231 | one step of the walk ends in a directory of the session, or fails; without failing calls exactly if the name is in the way |
| SessionFiles.Session.OpenParent | code_executor_api/sessions.py:203-235 | whatever executed code does meanwhile, one descriptor of a session directory is handed out or none is left open; in a quiet tree it is the parent's, no file changes, and it fails exactly if a file or gap is in the way; without failing calls every failure says "not found" |
| SessionFiles.Session.StageFile | code_executor_api/sessions.py:303-325 | the whole body is under the hidden name beside the target and every other file as before, or nothing has changed but empty directories, unless the unlink of the hidden file failed of itself; exactly when it succeeds without failing calls; otherwise it is refused with the error for the first thing in the way |
| SessionFiles.Session.CommitStagedFile | code_executor_api/sessions.py:327-329 | the target names the staged file and nothing else changes; in a quiet tree it succeeds exactly if no call fails and the target is no directory |
| SessionFiles.Session.DiscardStagedFile | code_executor_api/sessions.py:331-334 | the hidden file is gone and nothing else changed, unless an open or unlink failed of itself |
| SessionFiles.Session.Abandon | code_executor_api/sessions.py:340-346 | after a failed commit the files are those from before the write, unless the discard failed too |
| SessionFiles.Session.WriteFile | code_executor_api/sessions.py:336-349 | all or nothing at the target and nothing elsewhere, no descriptor left open, none closed twice but by a cancelled wrapping; a hidden file is left only if opening its directory again or unlinking it failed of itself, at whatever call the write failed; exactly when it succeeds without failing calls; never a raw size or quota error, but the limit error for it |
| SessionFiles.Session.OpenRegular | code_executor_api/sessions.py:240-261 | a descriptor is kept only of a regular file of the session; a directory is told apart from everything else that has no content |
| SessionFiles.Session.ReadFile | code_executor_api/sessions.py:237-262 | the payload's descriptor is of a regular file of the session under the header for its path, or nothing stays open; in a quiet tree exactly if that is what the path names; it says "is a directory" exactly of a directory, and without failing calls "not found" of everything else |
| SessionFiles.Session.DeleteFile | code_executor_api/sessions.py:351-356 | exactly one name is gone, and only one that is no directory; a failed call changes nothing; refused as a directory exactly if it is one, as not found otherwise |
| Uploads.LastUploadWins | code_executor_api/routes/execute.py:94-97 | of several uploads to one path the last is what the path holds |
| Uploads.OtherFilesStay | code_executor_api/routes/execute.py:94-97 | paths no upload is for are untouched |
| Uploads.LastFieldCounts | code_executor_api/routes/execute.py:56-92 | of a repeated field the last value counts |
| Uploads.AttachmentLands | code_executor_api/routes/execute.py:56-92 | once the uploads of the parts up to an attachment are in place, its path holds its body |
| Uploads.AttachmentStays | code_executor_api/routes/execute.py:56-92 | and goes on to until a later part is for the same path: of several attachments for one path the last one wins |
| Uploads.AcceptableMeans | code_executor_api/routes/execute.py:56-92 | a request is acceptable exactly if every part is of a known kind and can be read, the language is a known one and the code has no NUL |
| Uploads.StageOne | code_executor_api/routes/execute.py:68-71 | one more attachment is hidden beside its target without disturbing those staged before, or the block stops with those still accounted for |
| Uploads.StageAll | code_executor_api/routes/execute.py:56-87 | after all parts every upload is staged in order and no visible file has changed; the loop stops early only for a part, a body or a tree at fault, or a failed call |
| Uploads.CommitAll | code_executor_api/routes/execute.py:94-97 | what has been revealed is a prefix of the uploads applied in order, and what is still listed is still hidden |
| Uploads.DiscardAll | code_executor_api/routes/execute.py:99-102 | every file still listed is gone in the end, each discard independent of the others, unless one failed of itself |
| Uploads.StageAttachments | code_executor_api/routes/execute.py:52-102 | the files are the old ones with the first so many uploads applied in order: none unless the request is acceptable, all if the code is to run; new directories only on the way to attachments; at whatever call staging or revealing fails, no hidden file is left unless reopening its directory or unlinking it failed of itself, and none under the name of another file; no descriptor is closed twice but by a cancelled wrapping; success whenever nothing is in the way; a request with nothing in its way is answered with the language and the code, or refused as a bad request, exactly as it is acceptable or not |
| Streams.ReadContent | code_executor_api/file_helpers.py:73-85 | the whole stream if it fits and ends well, an error exactly otherwise |
| Streams.ChunksDoNotMatter | code_executor_api/file_helpers.py:19-85 | two ways of cutting a stream into non-empty chunks, or holding it in one buffer, have the same outcome |
| Streams.CappedExactly | code_executor_api/file_helpers.py:19-85 | of a buffer, or a stream without empty chunks: too large exactly over the cap, else broken exactly if the stream is, else all of it |
| Streams.BodyIsConcat | code_executor_api/file_helpers.py:57-65 | without empty chunks the loop reads the whole stream |
| PtyDrain.Terminal.ReadMaxAndClose | code_executor_api/executor/podman_executor.py:98-132 | a prefix of what the loop reads, of the length of the limit or of all that is read if that is less, however it is cut and although the rest is read too; an error exactly for a failing read; both descriptors closed in every case |
| PtyDrain.DrainExact | code_executor_api/executor/podman_executor.py:112-117 | when no read meets an end or an error, what was read is what was printed before the last `select`; everything printed so far has been read if and only if nothing was printed between that `select` and the look at the flag |
| PtyDrain.DrainConserves | code_executor_api/executor/podman_executor.py:112-128 | however the loop ends, what was read followed by what is still unread is what was printed: nothing duplicated, dropped or reordered |
| PtyDrain.DrainLooks | code_executor_api/executor/podman_executor.py:113-116 | the loop ends by the flag only if the flag was set by the thread's first step after an empty `select` |
| PtyDrain.DrainEnds | code_executor_api/executor/podman_executor.py:118-125 | without the flag the loop ends only at a read that meets an end, and fails only at one that fails |
| PtyDrain.NothingLost | code_executor_api/executor/podman_executor.py:98-132 | if no read meets an end or an error and the thread takes a step between the last output and the setting of the flag, all output is read |
| PtyDrain.OutputLost | code_executor_api/executor/podman_executor.py:113-116 | output between an empty `select` and the look at the flag, with the flag set behind it, is never read |
| Scan.VisibleIsWhatPathsLeadTo | code_executor_api/executor/podman_executor.py:56-85 | a file is found under a path exactly if the path leads to a regular file through directories that are not hidden |
| Scan.VisibleOnce | code_executor_api/executor/podman_executor.py:56-85 | no path is found twice |
| Scan.VisibleIsProper | code_executor_api/executor/podman_executor.py:56-85 | the paths found are made of proper names |
| Scan.ScanShowsTheTree | code_executor_api/executor/podman_executor.py:56-85 | of a tree at rest, scanned to the end, a path leads to a file exactly if it names a regular file in the inode tree, links not followed, and no directory on the way is hidden (its name begins with ".") |
| Scan.ScanDirectory | code_executor_api/executor/podman_executor.py:68-85 | one scan accounts for everything visible in its directory: yielded, or below a directory put on the stack |
| Scan.IterSessionFiles | code_executor_api/executor/podman_executor.py:66-85 | terminates having yielded what the recursive reading finds, as often, with root-relative paths |
| Changes.SnapshotIsTheTree | code_executor_api/executor/podman_executor.py:172-175 | a snapshot says of every path what it leads to in the tree, whatever the order of the scans |
| Changes.ReportedExactly | code_executor_api/executor/podman_executor.py:268-285 | scans, snapshots and diff composed: a path is reported as changed exactly if it leads to a stamp it did not lead to before, and as deleted exactly if it led to a file and now leads to none |
| Changes.DeletedFromTheTree | code_executor_api/executor/podman_executor.py:268-285 | for trees at rest, a path is reported as deleted exactly if it named a regular file outside hidden directories and names none any more |
| Changes.YieldsAreDistinct | code_executor_api/executor/podman_executor.py:82 | no two yields carry the same path text |
| Changes.ExecutionEnvironment.constructor | code_executor_api/executor/podman_executor.py:163-175 | the stamps of all files yielded before the run |
| Changes.ExecutionEnvironment.CollectChanges | code_executor_api/executor/podman_executor.py:268-285 | the two lists are the diff of the snapshots, ascending and without duplicates; of neighbouring names the first is a proper prefix of the second or has the smaller character where they first differ |
| Changes.DiffIsExact | code_executor_api/executor/podman_executor.py:268-285 | the diff patches the old snapshot into the new one, its lists are disjoint, and no patch does with fewer names |
| Changes.DiffIsUnique | code_executor_api/executor/podman_executor.py:284-285 | there is only one such pair of lists |
| Changes.SortedIsAscending | code_executor_api/executor/podman_executor.py:284 | sorting distinct names gives them in ascending order |
| Changes.LessIsFirstDifference | code_executor_api/executor/podman_executor.py:284-285 | the order of the names: one precedes another exactly if it is a proper prefix of it or has the smaller character where they first differ |
| Attachments.AttachOrOmit | code_executor_api/routes/execute.py:115-125 | as many files are attached as are readable, up to the maximum, and a file is omitted exactly if unreadable or behind that many readable ones; no more than the maximum are attached, all of them readable, and nothing is lost between the two lists |
| Attachments.AttachedOrOmitted | code_executor_api/routes/execute.py:115-125 | the two lists are ascending, disjoint and together the changed files |
| Removal.FrontierEnds | code_executor_api/sessions.py:173-177 | a walk that goes into every directory it passes misses none of the tree |
| Removal.OwnedTree.OpenUpSubdirectories | code_executor_api/sessions.py:173-177 | exactly the real subdirectories become accessible; links to directories are not followed |
| Removal.OwnedTree.Unlock | code_executor_api/sessions.py:171-177 | every directory of the tree becomes accessible whatever its bits were, and no other mode changes |
| Removal.OwnedTree.RemoveEntry | code_executor_api/sessions.py:178 | one entry goes with all that is below it, and a refusal means that some directory at or below was not accessible |
| Removal.OwnedTree.Empty | code_executor_api/sessions.py:178 | removal below a directory succeeds if and only if every directory there can be listed and, unless it is empty, searched and written; it touches nothing outside |
| Removal.OwnedTree.RemoveTree | code_executor_api/sessions.py:159-178 | whatever bits were left on it the tree ends up empty, and no other inode is changed |

## Left out

- Podman, the pty device, `xfs_quota` and sudo: foreign processes, present only as steps that succeed, fail or time out.
- aiohttp: multipart parsing and serialisation and the mapping of exceptions to status codes; a request body is a list of parts any of which may raise, and response bytes are streamed after the lock is released, so nothing is said about them.
- `delete_all`, `stop_sweep` and start-up wiring (code_executor_api/sessions.py:494-520): they take no locks and run when requests have ended.
- `list_directory` (code_executor_api/sessions.py:264-301): it opens directories by the walk proved for reading; the listing itself would only add easy members.
- `get_sub_path` (code_executor_api/sessions.py:358-367): text only, and nothing calls it.
- The rounding of the block limit to KiB (code_executor_api/sessions.py:131): one line of arithmetic; rounding up makes the limit the configured size or slightly more.
- `create` leaves behind the directory it has just made when project ids are exhausted (code_executor_api/sessions.py:400-402); the model has no directories outside sessions.
- Whether a stamp detects every change of content: the diff is proved over stamps.
- Languages other than by membership, and the decoding and stripping of text fields: a text part is a value or a failure.
- config.py, languages.py, app.py, health and the HTTP client are not modelled.
- Paths.NormalizeIsWalk: strings are sequences of Unicode scalar values, so lone surrogates occur in `Utf8` and `Disposition` only; normalisation treats every character but "/", "." and NUL alike.
- Disposition.ParseOfPrint: the parser takes no folded header lines, which the printer never produces.
- ProtocolSafety.MakersLeaveNothing: a cancelled request may leave its session to the sweeper, as the code does.
- ProtocolSafety.SweepComplete: says nothing of a pass that is cancelled, nor of sessions whose lock was not obtained.
- ProtocolLiveness.RunsDrain: continuations exist and every step of them leaves less work; that the event loop runs what is ready at all is not modelled.
- SessionFiles.Session.WriteFile: bytes reach the file when they are written, without the buffer of the file object; a flush that fails is a failing close.
- PtyDrain.DrainExact: the flag is taken to be set in the end, as the `finally` of `run_container` sees to.
- Attachments.AttachOrOmit: readability is a property of each file during the loop, which the session lock sees to.
- Removal.OwnedTree.RemoveTree: the removal of the root's own entry depends on the directory that holds all sessions, which is not part of this model.
