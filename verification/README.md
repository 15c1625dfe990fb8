# omafile, verified

omafile is a file manager whose daemon copies, moves, trashes and renames files for a
window that can take the last thing back. This project states in Dafny what the daemon's
engine, its Job runner, its broadcast to connected windows, its trash and the window's undo
protocol promise, and proves it. `dafny verify dfyconfig.toml` checks everything.

## What is modelled

**The commit engine** (`Paths`, `Disk`, `CommitMachine`, `CommitInvariant`, `CommitLanding`,
`CommitTheorems`, `CommitAttempts`, `CommitFallbacks`, `CommitWitness`, `Engine`). A filesystem of inodes with unsynced data, and a directory tree
that nobody fsyncs. Each system call of a copy or a move is one step of a machine. Every step
may fail, reads may stop early, another process may create files, `exists` may mistake a
failed lookup for absence (unless the configuration is `calm`), writes may put down other
bytes (unless it is `faithful`), the steps of all Jobs interleave, and the daemon may crash
or the power may go between any two of them. A process crash keeps the filesystem and the
journal. A power loss brings each device back to some directory tree it has shown since the
last boot, each by its own, and lets unsynced data hold anything. The theorems are about
every state of every run. `Engine` is the engine as it is written, with its loops and early
returns, and is proved to walk the machine call by call, so the theorems hold of it.

The hypotheses are those of `Disjoint`: the names two Jobs may land on, and the temp names
beside them, do not meet; sources are stable and nobody's landing; a Job lands under its
source's name; SHA-256 is taken to be injective. Each file of a request is a Job of the
machine, and those of one request are taken one after another: these may meet at the names
they land on, where the machine is calm and the request does not replace. Runs start from a booted machine with an
empty journal; old temp files may be lying about.

**The Job runner** (`JobRunner`, `JobThread`): the tally, the views a Job puts, and the claim
it ends on. Its calls go to `Engine.Transfer`, so what it tallies was true of the disk when
it was tallied; a request that is outside `Disjoint` runs against any answers whatever. Its
views go into the registry, `Writer.Shared`, as they are made.

**The registry and its writers** (`Writer`): put is two steps, a connection's opening is
three, a tick is several; threads interleave freely. `early` and `missed` record which
completions fell between a connection's opening snapshot and its baseline revision. They
steer nothing.

**The trash** (`TrashRecord`, `TrashDate`, `Trash`, `TrashPowerLoss`, `Calendar`): percent-encoding as the FreeDesktop.org
Trash Specification, "Contents of a trash directory", asks; the record's lines; the two-file
protocol with a crash of the daemon between any two steps, and what a loss of power leaves
of it; and the date of a second count against the
Gregorian calendar. Names and paths are bytes here.

**Undo** (`UndoStack`, `UndoProtocol`, `UndoBatches`, `UndoPromises`, `UndoWindow`,
`UndoInverse`): the stack; the window's handlers as state changes, with a ledger of who asked
for what and what came of it beside them; the invariants of that, the counts of trash batches
among them; what the answers then spend and record; the handlers as they are written, proved
to make those changes, with every request they hand to the socket; and the filesystem under
all of it, on which the daemon carries those requests out. The
connection delays and loses nothing, request and Job ids are unique, there is one daemon
lifetime.

**The folder tree** (`FolderTree`): the flat list of rows against the tree it stands for.

## What turned out not to hold

- A completion can be lost. A Job that ends between a connection's opening snapshot and the
  baseline revision its writer reads is not announced to that connection until something
  else changes. `Writer.LostExactlyInTheGap` says that these, and no others, are missed;
  `Writer.GapLosesACompletion` shows one.
- An undo can spend the wrong entry. If the daemon falls silent while the conflict question
  of an undo is out, the entry is let go and the question is not withdrawn; the answer is
  then carried out with nothing in flight, and its success takes the top of the stack.
  `UndoPromises.SilenceMayMisspendIff` says that silence can lead there if and only if that
  question is out; from every such state `UndoPromises.StrandingMaySpendTheWrongEntry` plays
  on to it, and `UndoPromises.SilenceSpendsTheWrongEntry` is one such run from the start.
- A move between devices can lose the file to a power loss, after it has reported success
  too, because no directory is fsynced. `CommitTheorems.MoveMayBeLostIff` says exactly when:
  one of the trees since the last boot lacks the source and one lacks every landing, which
  `CommitTheorems.RemovedSourceIsAtRisk` finds until the next boot;
  `CommitWitness.CrossDeviceMoveMayBeLost` is a run.
- An error can come back although the file has landed. `CommitTheorems.ErrorAfterLandingIff`
  says that it has landed if and only if the failing call is the journal's clearing or the
  removal of a moved source; `CommitTheorems.MayFailLate` that either call may fail wherever a
  run comes to it; `CommitWitness.ErrorMayFollowLanding` is a run.
- The record of a trashed file does not survive a power loss: it is not fsynced before the
  file is renamed. `TrashPowerLoss.RecordMayBeLost`; with the fsync it would,
  `TrashPowerLoss.RecordSurvivesIff`.
- Trashing what is itself the record of a file in the trash leaves that file without one, and
  nothing else does: `Trash.Bin.TrashFile`.
- Undoing a move does not lead back if the move started in the root directory (the window
  keeps an empty string for it) or landed under another name: `UndoInverse.WayBackIff`.
- A restore that is given a record which is not the file's own may leave another trashed file
  without one. `Trash.Bin.Restore` says when for any two paths, `Trash.RecordGoesSafelyIff`
  for a record that leads out of the trash, and `Trash.AnothersRecordUncovers` shows one.
- A listing that arrives after the rows have changed is spliced in under whatever row now has
  that number: `FolderTree.AnswerFitsIff`; `FolderTree.Overtaken` plays one.
- The comment in `daemon/src/engine.rs:245-247` says the journal decides whether a partial
  temp file is resumed. `bytes_done` is recorded once, before the stream, as what was found
  resumable, so starting from an empty journal it is always 0 and nothing is ever resumed:
  `CommitTheorems.NothingIsResumed`. What resuming would give is `ResumeEqualsRestart`.

## Model

| member | source | states |
|---|---|---|
| Paths.TempIsInjective | daemon/src/fs_ops.rs:72-76 | the temp name is hidden and beside its destination, and two destinations share one only if they are the same |
| Paths.CandidateIsInjective | daemon/src/engine.rs:369-387 | no two of the names tried beside a destination are the same |
| Paths.CandidateKeepsExtension | daemon/src/engine.rs:369-387 | a name beside the destination is its stem, a dash, the number in base ten, and its extension; a leading dot is part of the stem |
| CommitInvariant.RunKeeps | daemon/src/engine.rs:90-243 | the invariant of the disk, the journal and every Job's thread holds in every state of every run, through failures, crashes and power loss |
| CommitTheorems.NeverPartial | daemon/src/engine.rs:141-243 | in every tree the medium might show, every name but a temp name holds durable, whole content: what was there, what another process put there, or a whole source |
| CommitTheorems.NeverPartialAfterPowerLoss | daemon/src/engine.rs:193-243 | the same of what is found after the power goes in any state |
| CommitTheorems.NothingDisappears | daemon/src/engine.rs:90-243 | nothing that was there disappears from any such tree, the source of a move aside |
| CommitTheorems.CopiedIsTrue | daemon/src/engine.rs:202-243 | a Job that says copied has its whole source, durable and of the reported size, where it says; byte for byte on a faithful medium, and under every tier but the size check on any |
| CommitTheorems.MovedIsTrue | daemon/src/engine.rs:90-128 | a Job that says moved has its source's bytes where it says, likewise, and the source is gone |
| CommitTheorems.SkippedIsTrue | daemon/src/engine.rs:101-157 | a Job that says it left a file alone was told to, and the name is in use |
| CommitTheorems.MoveNeverLoses | daemon/src/engine.rs:90-128 | at every step of a move on one device, or of any move while power is not lost, the bytes are at the source or at a landing of that Job |
| CommitTheorems.MoveMayBeLostIff | daemon/src/engine.rs:110-127 | for a move between devices, at any moment of any run: a power loss may leave the file nowhere if and only if, of the trees since the last boot, one lacks the source and one lacks every landing |
| CommitTheorems.RemovedSourceIsAtRisk | daemon/src/engine.rs:116-127 | so it may whenever the source is gone and some tree since that boot had none of the Job's names |
| CommitTheorems.ErrorAfterLandingIff | daemon/src/engine.rs:110-243 | an attempt that ends in an error had committed if and only if the failing call is the journal's clearing or the removal of the source, and then the file is there whole |
| CommitTheorems.MayFailLate | daemon/src/engine.rs:110-243 | from every state of every run in which a Job stands past its commit there is a step to such an error |
| CommitWitness.ErrorMayFollowLanding | daemon/src/engine.rs:237-243 | a run that ends in an error with the file at its destination, whole |
| CommitTheorems.SourceIsUntouched | daemon/src/engine.rs:259-296 | while it is there a source holds what it held, whoever else is at work |
| CommitTheorems.SourceGoesLast | daemon/src/engine.rs:110-128 | only a move's rename or its last step takes a source away, and the last step only when the landing is whole |
| CommitTheorems.NothingIsResumed | daemon/src/engine.rs:191-257 | every entry of every journal the medium might show records no progress, so every stream starts at the beginning, whatever the entry's source |
| CommitTheorems.StreamIsPrefix | daemon/src/engine.rs:259-296 | during a stream the temp file holds what has been read of the source and nothing stale |
| CommitTheorems.ResumeEqualsRestart | daemon/src/engine.rs:259-296 | from a temp file holding a prefix of the source, streaming on gives the same file as streaming from the start |
| CommitTheorems.JournalCovers | daemon/src/engine.rs:193-243 | from before the first temp byte until the commit or the cleanup the journal names the temp file, its destination and size; after a copy, a move between devices, or a cleanup that worked, there is neither an entry nor a temp file |
| CommitAttempts.FailureLeavesNothing | daemon/src/engine.rs:202-336 | an attempt that ends because sizes or hashes differ, or because its stream failed, leaves neither the temp file nor the entry, unless a call that cleans up failed where it might have succeeded |
| CommitAttempts.LateFailureLeavesBoth | daemon/src/engine.rs:226-237 | an attempt that fails after the comparison of sizes and before the commit leaves both |
| CommitFallbacks.OneDeviceIsARename | daemon/src/engine.rs:108-114 | a move on one device copies nothing: the file that arrives is the very one that was the source |
| CommitFallbacks.CloneLeavesNothing | daemon/src/fs_ops.rs:36-53 | an attempt whose clone was refused or could not be committed, and that failed without copying a byte, leaves no temp file, unless its removal failed |
| CommitFallbacks.GivesUpAfterTwo | daemon/src/engine.rs:310-336 | a copy is given up for its hash if and only if both files were compared twice and differed both times; there is no third comparison |
| CommitAttempts.TierTellsHow | daemon/src/engine.rs:170-243 | the tier of a copy is shared extents if and only if no byte was copied, and then there was a clone; a checksum if and only if both files were hashed; a size otherwise |
| CommitAttempts.ReplacedTellsTruth | daemon/src/engine.rs:150-162 | a copy says it replaced a file if and only if its check found one and the policy is to replace |
| CommitTheorems.PreExistingIsUnchanged | daemon/src/engine.rs:97-162 | under Skip and KeepBoth, undisturbed, a transfer changes nothing that was there but temp names and a moved source |
| CommitTheorems.SearchTakesTheLeast | daemon/src/engine.rs:369-387 | when a search ends, of a copy or of a move, the name asked about is in use and so are all lesser names than the one taken |
| CommitTheorems.LandsAtTheLeast | daemon/src/engine.rs:90-243 | a file that landed is under the name asked for or, keeping both, under the least free one beside an occupied name, which, undisturbed, replaces nothing |
| CommitLanding.RunLands | daemon/src/engine.rs:97-243 | in every state of every run each Job stands at such a name, and past its commit no temp file is left |
| CommitTheorems.SourceIsNoTemp | daemon/src/server.rs:712-715 | a Job's source is not the temp file of any name the Job may land on |
| CommitWitness.CrossDeviceMoveMayBeLost | daemon/src/engine.rs:110-127 | a run in which a move between devices succeeds, the condition of MoveMayBeLostIff holds, and the power loss leaves the file nowhere |
| CommitWitness.MeetingFits | daemon/src/server.rs:712-746 | a request of two files that may land on one name, `f-2` and `f` keeping both, is among those the theorems speak of |
| CommitInvariant.OneAtATime | daemon/src/server.rs:712-746 | in every state of every run at most one file of a request is being taken |
| Engine.Kernel.Rename | daemon/src/engine.rs:111-112 | the rename call: the target leads to the source's inode and the source's name is gone, or nothing changed |
| Engine.Kernel.OpenTruncated | daemon/src/engine.rs:268-272 | opening for a fresh start empties an existing inode or makes a new one |
| Engine.Kernel.Write | daemon/src/engine.rs:279-286 | a write puts down its bytes at its offset, or some part of them and fails |
| Engine.Kernel.RecordEntry | daemon/src/journal.rs:54-63 | an entry appears whole or not at all |
| Engine.Kernel.ClearEntry | daemon/src/journal.rs:71-77 | clearing a missing entry succeeds |
| Engine.FreeNameBeside | daemon/src/engine.rs:369-387 | walks the search for a free name, step by step of the machine; the name returned is the first that was free at a moment of the search; without one, all ten thousand were in use |
| Engine.TryReflinkIntoTemp | daemon/src/fs_ops.rs:36-53 | walks the clone attempt; only the temp name is touched, and without a clone the Job goes on to copy |
| Engine.ResumePoint | daemon/src/engine.rs:248-257 | how much of the temp file the journal vouches for, which is all of it and less than the source, or nothing |
| Engine.Stream | daemon/src/engine.rs:259-296 | walks the chunk loop and the fsync from any offset, ends because the source is stable, and returns how much the file holds; nothing only if a call failed |
| Engine.VerifyWithRetry | daemon/src/engine.rs:310-336 | walks both hash attempts; after a mismatch there is neither a temp file nor an entry unless a call that cleans up failed; an I/O error sweeps nothing |
| Engine.CopyFileWith | daemon/src/engine.rs:141-243 | walks a copy from the size to the journal's clearing; its result is the one the machine's run ends on; an I/O error means that a call failed or, keeping both, that no name was free; after a comparison that failed there is neither a temp file nor an entry unless a call that cleans up failed; on one device and nowhere else the bytes are shared, unless a call failed, and otherwise the tier is the check that was asked for |
| Engine.MoveFileWith | daemon/src/engine.rs:90-128 | walks a move, the copy inside it included; an I/O error means the same, and so does a comparison that failed |
| Engine.Transfer | daemon/src/server.rs:742-746 | what one answer of the engine is worth when it is given, whatever other Jobs are doing: the landing is there, under the name asked for or the least free one, whole, and the source's, under every tier but a size check even where the medium is not faithful; a moved source is gone; a file left alone was in the way |
| Engine.TakeTurn | daemon/src/server.rs:712-770 | a file's turn, while the other files of its request wait: the answer was true at a moment of it, and the length asked of a moved file is its source's |
| JobRunner.Partition | daemon/src/server.rs:554-591 | every file done is counted once, as moved, copied or left alone, and those that landed are listed |
| JobRunner.ClaimIgnoresOrder | daemon/src/tier.rs:30-41 | what may be claimed of a Job depends on which outcomes occurred, not on their order or number |
| JobRunner.Tally.Record | daemon/src/server.rs:554-587 | one more outcome: counts, bytes, landing names and the least tier are those of all the files so far |
| JobRunner.Tally.Finish | daemon/src/server.rs:593-631 | the word, the tier and its rank are true of the files: moved if some moved and none was copied, skipped if nothing landed, and of copies 1 and a size check if any was only size checked, 3 and shared extents if all were shared, 2 and a checksum otherwise |
| JobRunner.TallyIsTrue | daemon/src/server.rs:554-591 | the counts of a tally are the numbers of its files that arrived, stayed and replaced another, and its landings are listed in the order of the files, each under both its names |
| JobThread.RunJob | daemon/src/server.rs:698-797 | files are handed to the engine in order, each under its own name, none after a failure; landed, left alone, failing and not attempted add up to the total; every view was in the registry in its turn, the last alone is terminal and keeps to the verb asked for, each before it shows the figures of the files done so far; and each outcome was true of the disk when the engine gave it, the landing whole and the source's |
| JobThread.ClaimIsKept | daemon/src/tier.rs:4-22 | a claim above a size check is kept by the disk, on any medium: each landing held the whole source, byte for byte and durable, when the engine answered |
| JobThread.EndIsHeard | daemon/src/server.rs:352-366 | a connection that is told of the end of a Job is told that it failed if and only if the thread's last view has failed, and otherwise that it is done |
| JobThread.BytesAreTheSources | daemon/src/server.rs:554-591 | the bytes reported are those of the sources of the files that arrived, and fewer if and only if the length of a moved file could not be asked |
| JobThread.Publish | daemon/src/server.rs:95-100 | one more view is put: no two puts of a Job overlap and none follows a terminal one |
| Writer.SnapshotFor | daemon/src/server.rs:82-94 | what a connection still has something to say about |
| Writer.StepKeeps | daemon/src/server.rs:95-107 | every interleaved step of Job threads, releases and connections keeps the invariant |
| Writer.AtMostOnce | daemon/src/server.rs:312-371 | over every run a connection hears nothing of a Job that had ended in its opening state, and nothing of a Job after its completion |
| Writer.LostExactlyInTheGap | daemon/src/server.rs:307-372 | on a quiet connection that has seen the latest revision, the unreleased ended Jobs not conveyed are exactly those that fell in the gap |
| Writer.OverIsHeard | daemon/src/server.rs:307-372 | once a Job's thread has ended, a connection that falls quiet before the Job is released has been told, if and only if it did not fall in the gap |
| Writer.EndIsToldAsItWas | daemon/src/server.rs:352-371 | over every run, once a Job has been seen to end, all that any connection is ever told of its end is a failure if that view has an error and a completion if not, even after its release |
| Writer.GapIsSnapshotToBaseline | daemon/src/server.rs:307-334 | a completion is in the gap only if it was inserted after the snapshot and bumped before the baseline, and a tick that looks settles it |
| Writer.NextTickDelivers | daemon/src/server.rs:335-371 | when a tick has sent what it found, every ended Job has been conveyed, or its put is under way, or there is a newer revision |
| Writer.GapLosesACompletion | daemon/src/server.rs:307-334 | a run in which a completion falls in the gap and is not conveyed |
| Writer.Shared.Put | daemon/src/server.rs:95-100 | insert, then bump, with any steps of any other thread between |
| Writer.Shared.Remove | daemon/src/server.rs:105-107 | a release takes the Job out and does not bump |
| Writer.TickOnce | daemon/src/server.rs:335-371 | a tick reads the revision; if it is not new nothing is sent; if it is, the snapshot of one moment of the tick is sent, one event a Job and no other, a failure of one found with an error, a completion of one found with a tier and no error, progress of any other, before the writer rests again, and of a connection that is gone a part of it |
| Writer.Serve | daemon/src/server.rs:307-374 | a connection's writer walks the protocol; what it sent is the log the theorems speak of |
| TrashRecord.UriEscape | daemon/src/trash.rs:167-178 | the loop computes the escaping |
| TrashRecord.UriUnescape | daemon/src/trash.rs:192-208 | the loop computes the decoding, for any bytes |
| TrashRecord.EscapeRoundTrips | daemon/src/trash.rs:167-208 | for every byte string, decoding the escaped form gives it back |
| TrashRecord.EscapeIsPlain | daemon/src/trash.rs:165-178 | the escaped form holds only letters, digits, `/-_.~` and percent signs, and text is changed if and only if it holds something else |
| TrashRecord.EscapedInCapitals | daemon/src/trash.rs:167-178 | anything else becomes a percent sign and its two digits in base sixteen, in capitals |
| TrashRecord.HexDigitIs | daemon/src/trash.rs:210-222 | a digit of base sixteen is one of 0-9, a-f, A-F and nothing else, and worth what it says |
| TrashRecord.UnescapeShortens | daemon/src/trash.rs:192-208 | each escape shortens foreign text by two and nothing lengthens it |
| TrashRecord.UntouchedIffNoEscape | daemon/src/trash.rs:192-208 | text comes through unchanged if and only if it holds no escape |
| TrashRecord.BarePercentStays | daemon/src/trash.rs:192-222 | a percent sign without two hex digits stays, and both sides are decoded independently |
| TrashRecord.ReadOriginal | daemon/src/trash.rs:121-134 | the loop finds the last Path line and decodes it |
| TrashRecord.RecordReads | daemon/src/trash.rs:101-108 | what is written, word for word |
| TrashRecord.LinesEnd | daemon/src/trash.rs:121-128 | a line ends at its newline, with or without a carriage return before it |
| TrashRecord.LastPathCounts | daemon/src/trash.rs:121-128 | of several Path lines the last counts |
| TrashRecord.RecordRoundTrips | daemon/src/trash.rs:101-128 | for every path and any one-line date, the record written names the path when read |
| Trash.NameIsNumbered | daemon/src/trash.rs:154-163 | the names tried are the file's own and then that with a dot and a number in base ten |
| Trash.Bin.UniqueName | daemon/src/trash.rs:154-163 | the least of the names tried that neither directory uses, the file's own if it is free, or none of ten thousand |
| Trash.Bin.Write | daemon/src/trash.rs:101-108 | writing a record may leave any prefix of it; every state on the way is covered |
| Trash.Bin.TrashFile | daemon/src/trash.rs:78-118 | at every moment each file put in the trash has a record naming where it came from, unless the file taken is such a record; the file is in the trash under the least free name with its record, whose date reads back to the second of its deletion, or at most a record is left over; unless a call failed it errs only for a missing file or a full trash, and leaves nothing; on another device nothing is touched |
| Trash.Bin.Restore | daemon/src/trash.rs:121-143 | for any two paths: the file is where the record says and every trashed file is covered, during and after, if and only if each that is in the trash then has its record then; or nothing changed and a file was missing, the record unreadable, or a call failed |
| Trash.RestoreSparesIff | daemon/src/trash.rs:129-141 | for a file and a record of the trash: the same in terms of the names they have there, with the record removed or left |
| Trash.RestoreInvertsTrash | daemon/src/trash.rs:78-143 | restoring what was just trashed gives back the same filesystem |
| Trash.RecordGoesSafelyIff | daemon/src/trash.rs:121-143 | a record read as leading out of the trash: moving the file harms nobody, and taking the record away leaves another file uncovered if and only if it was that file's own |
| Trash.AnothersRecordUncovers | daemon/src/trash.rs:121-143 | two files in the trash, one restored by the other's record, which is left without |
| TrashPowerLoss.RecordMayBeLost | daemon/src/trash.rs:101-111 | after a power loss the record found beside a trashed file may hold anything |
| TrashPowerLoss.RecordSurvivesIff | daemon/src/trash.rs:101-111 | after a power loss a trashed file's record is sure to be there and whole if and only if it was fsynced before the rename; if not it may hold anything |
| TrashDate.IsoReadsBack | daemon/src/trash.rs:225-233 | for every valid date and time of a year of four digits, the text written is `YYYY-MM-DDThh:mm:ss` and reads back, in base ten, as its six fields |
| TrashDate.RecordTellsTheTime | daemon/src/trash.rs:101-233 | the record written at a time reads back as deleted at that time |
| TrashDate.IsoIsOneLine | daemon/src/trash.rs:225-233 | the date written is a single line, of any year |
| Calendar.DateOfInverts | daemon/src/trash.rs:255-267 | for every integer the date computed is valid and is that day of the calendar |
| Calendar.DayNumberInverts | daemon/src/trash.rs:255-267 | every valid date is the date computed of its day count |
| Calendar.NextDayIsTomorrow | daemon/src/trash.rs:255-267 | each day is followed by its calendar successor |
| Calendar.CivilInverts | daemon/src/trash.rs:255-269 | for every second count, a valid date and time of day, whose count it is |
| Calendar.UnixInverts | daemon/src/trash.rs:255-269 | and every valid date and time is computed from its count |
| Calendar.CivilIncreases | daemon/src/trash.rs:255-269 | a later second count gives a later date and time, compared field by field |
| Calendar.Epoch | daemon/src/trash.rs:255-269 | zero is 1970-01-01T00:00:00 |
| UndoStack.WithoutTakesOne | components/UndoStack.qml:144-155 | spending an entry by identity takes exactly that one and keeps the order |
| UndoStack.CommitSpendsItsOwn | components/UndoStack.qml:125-164 | whatever is recorded while an undo is under way, its success spends its own entry |
| UndoStack.CommitIsPop | components/UndoStack.qml:158-176 | undisturbed, that is a pop |
| UndoStack.SessionStack.Push | components/UndoStack.qml:48-55 | the new entry is on top of what was there, and of fifty the oldest goes |
| UndoStack.SessionStack.Retire | components/UndoStack.qml:144-155 | spends one entry wherever it sits and says whether it was there |
| UndoStack.SessionStack.Commit | components/UndoStack.qml:158-164 | spends the entry in flight, or the top if there is none |
| UndoStack.SessionStack.Release | components/UndoStack.qml:168 | nothing is in flight and nothing is spent |
| UndoProtocol.EventKeepsIff | App.qml:1121-1163 | every event keeps the protocol's invariant, except silence during an undo's conflict question |
| UndoProtocol.RunKeeps | App.qml:506-648 | the invariant holds in every state of every run without that event |
| UndoBatches.RunKeepsBatches | App.qml:555-607 | in every such state the counts of every batch, waited for or given up on, are those of its own answers, and no answer belongs to two |
| UndoBatches.RestoredExactly | App.qml:555-607 | an answer to a restore, prompt or late, spends the batch's entry if and only if it is the last of its batch and something came back, and nothing otherwise |
| UndoPromises.EveryAnswerSpendsItsOwn | App.qml:1145-1280 | an answer to an undo, prompt or late, spends exactly the entry it answers if it happened, nothing if it did not, and records nothing; any other answer spends nothing and records exactly what was newly done: a delete, a rename, or a Job that moved its one file, left nothing alone and knows its name |
| UndoPromises.NeverLockedOut | App.qml:1117-1143 | while an undo is under way an answer, the end of its Job or the conflict question is still owed, so Ctrl+Z always comes back |
| UndoPromises.SilenceMayMisspendIff | App.qml:1121-1143 | silence may lead to an answer that spends another entry if and only if the conflict question of an undo is out |
| UndoPromises.StrandingMaySpendTheWrongEntry | App.qml:1121-1143 | from every state with that question out, silence, one more delete and the question's answer end in the delete's entry being spent for the move |
| UndoPromises.SilenceSpendsTheWrongEntry | App.qml:1121-1143 | a run in which that silence makes a successful undo spend another entry |
| UndoWindow.Window.UndoLast | App.qml:506-552 | hands over what the top entry is undone by, request for request, and follows those the socket took; nothing is taken off the stack, and nothing is asked while an undo is under way or the daemon is silent |
| UndoWindow.Window.BeginTransfer | App.qml:768-787 | one question at a time, about these files and this directory; false if nothing went out |
| UndoWindow.Window.SendPendingTransfer | App.qml:806-821 | the waiting transfer goes out, with its own files, directory and verb and the policy chosen, or an undo's entry is let go |
| UndoWindow.Window.OnConflictsFound | App.qml:1164-1182 | an answer to the question being asked, without collisions, sends the transfer, and to skip what may have appeared since; any other sends and changes nothing |
| UndoWindow.Window.OnAcknowledged | App.qml:1145-1163 | the Job an undo becomes is followed, prompt or late |
| UndoWindow.Window.OnRenamed | App.qml:1184-1225 | a rename's answer is an undo's, a late undo's or the user's |
| UndoWindow.Window.NoteRestored | App.qml:555-580 | a trash entry is spent when all answers are in and something came back |
| UndoWindow.Window.NoteLateRestored | App.qml:586-607 | the same of a batch given up on |
| UndoWindow.Window.OnJobFinished | App.qml:1239-1281 | a finished Job is an undo's, a late undo's or new work |
| UndoWindow.Window.NoteJobFailed | App.qml:616-631 | a failed undo is let go; a late failure spends nothing |
| UndoWindow.Window.OnDropped | App.qml:1121-1143 | what is given up on is remembered with its entry |
| UndoWindow.Window.GiveUpAsking | App.qml:795-803 | a question unanswered or cancelled lets an undo's entry go |
| UndoInverse.Disk.Rename | daemon/src/server.rs:814-840 | renames if and only if the name is usable, the file is there, the name is free or its own, and the system allows it; no other file is ever touched |
| UndoInverse.WayBackIff | components/UndoStack.qml:64-77 | the path a recorded move is undone to is its source if and only if the name was kept and the start was not the root |
| UndoInverse.JoinsAgree | daemon/src/server.rs:712-715 | the destination as the window records it leads to the file the daemon put there, the root directory included |
| UndoInverse.RestoreUndoesBatch | App.qml:517-536 | a trashed batch restored in the order it went gives back the filesystem |
| UndoInverse.UndoneIsInverse | App.qml:506-552 | for every recorded rename, move or delete, whatever else the window is waiting on: what the daemon does on the very requests Ctrl+Z then sends is the inverse of it |
| UndoInverse.UndoSparesTheOccupant | App.qml:540-548 | with another file where the moved one came from, undoing the move changes nothing |
| UndoInverse.UnaskedLosesNothing | App.qml:1170-1177 | what is sent without the user having been asked loses no file, whatever has appeared since the daemon looked, and touches none but those to be moved |
| UndoInverse.Recorded | App.qml:447-490 | what the window records of the daemon's news is the entry that undoes it |
| UndoInverse.UndoingAllRestoresAll | components/UndoStack.qml:48-113 | for any session the stack has room for, undoing all of it gives back the filesystem and the stack |
| FolderTree.Splice | components/FolderTree.qml:73-97 | the rows under a row are its visible descendants, and changing its children changes exactly those rows |
| FolderTree.RowsDetermineForest | components/FolderTree.qml:34-40 | a list of rows stands for at most one tree |
| FolderTree.ExpandThenCollapse | components/FolderTree.qml:65-97 | opening a closed folder and closing it again changes nothing |
| FolderTree.AnswerFitsIff | components/FolderTree.qml:73-87 | a listing spliced in under a row leaves rows of a tree that shows what is there if and only if it fits that row |
| FolderTree.Overtaken | components/FolderTree.qml:65-97 | a run of clicks in which a listing arrives after its row has gone: the rows are true if and only if the folder it lands under holds the same |
| FolderTree.Sidebar.Toggle | components/FolderTree.qml:65-71 | an open row is closed and the deeper rows after it go, a closed one is asked about |
| FolderTree.Sidebar.InsertChildren | components/FolderTree.qml:73-87 | the loop opens the pending row and puts the listing under it, closed and one step further in, in its order; the rows are those of the tree with it |
| FolderTree.Sidebar.Collapse | components/FolderTree.qml:92-97 | the loop ends, closes the row and removes exactly the deeper rows that follow, which are its descendants |
| FolderTree.Explore | components/FolderTree.qml:65-97 | after any clicks, each answered before the next, every click has opened or closed its own row and the rows are those of a tree that shows what is there |

## Left out

- CommitTheorems.MoveNeverLoses: across devices it is claimed where power is not lost, because otherwise it is false, exactly when CommitTheorems.MoveMayBeLostIff says.
- CommitTheorems.JournalCovers: speaks of the journal processes see, so of crashes of the daemon and not of power loss; the directory of the journal is not fsynced either.
- CommitTheorems.PreExistingIsUnchanged: asks for a `calm` configuration, since a lookup that fails or a file created between check and commit lets the rename replace it.
- UndoInverse.UnaskedLosesNothing: what a transfer that keeps both makes of a name in use is the engine's, and is not answered in the filesystem under the undo; nothing unasked keeps both.
- UndoInverse.UndoingAllRestoresAll: its moves keep the file's name, start below the root directory and replace nothing; what the others do is UndoInverse.WayBackIff.
- Trash.Bin.Restore: the original's directory is made by a call that may only fail.
- Trash.Bin.TrashFile: a path whose last component is empty or `..`, for which the code falls back to the name `file`, and the resolving of links by `canonicalize`.
- TrashRecord.UriUnescape: the decoded bytes are not passed through `String::from_utf8_lossy`, which changes those that are not UTF-8.
- Trash.Bin.UniqueName: `exists` is taken to be truthful here, and no other process uses the trash meanwhile.
- UndoPromises.EveryAnswerSpendsItsOwn: leaves out runs in which the daemon falls silent during an undo's conflict question, where it is false exactly when UndoPromises.SilenceMayMisspendIff says.
- JobThread.RunJob: a request two of whose files may land on one name has no machine beneath it if it replaces or if the machine is not calm, and its answers are then any; counters do not wrap at 32 or 64 bits.
- Power loss on a network mount whose rename is not atomic, and torn directory updates within one device, are not among the trees the medium may show.
- SHA-256 is an injective function; a journal entry's own temp file and rename are one step.
- `Journal::unfinished`: it lists what the journal holds, and nothing of the engine uses it.
- Two requests that may land on one name share a temp name; `Disjoint` excludes them, and within one request the files that may meet where it replaces or the machine is not calm: there the later file may replace the earlier.
- Symlinks, permissions, directories as objects, `create_dir_all`, hard links and non-UTF-8 names (`to_string_lossy`).
- Progress fractions, wording of details and notices, `seq` numbers, heartbeats, and the order of state replies relative to the writer.
- The tally of delete replies, which is by position and right only without overlapping batches; a confirmed delete is one event here.
- Reconnecting, several daemon lifetimes, and a question refused by another daemon.
- `statvfs`, `ioctl`, `fadvise`, `date`, environment variables: their results are arbitrary inputs.
- Sockets, systemd activation, JSON, the CLI, layout, themes, focus and dragging.
- A FolderListModel that is given the folder it already shows emits nothing; when a listing answers is up to the caller here.
- Weak memory: atomics are sequentially consistent.
