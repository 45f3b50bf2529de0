# mailshear, modelled and proved in Dafny

mailshear deletes bulk mail by moving it to Trash under a write-ahead audit log, and undoes a run by
reading that log and moving the copies back. This project models that protocol and the machines around
it, and proves what they promise. `dafny verify dfyconfig.toml` checks all of it.

## The apply/undo protocol

`Mailbox`, `Events` and `Host` are the environment: an IMAP server that maps a position (folder, UID) to a
message, whose arrivals get UIDs at or above UIDNEXT (section 2.3.1.1 of RFC 9051), and an audit file of
which a known part is durable. Every command may fail, and a command on several messages may stop after any
of them in any order (section 3.3 of RFC 6851). What may go wrong in a session is a constant of it (`Host.faults`,
`Store.breaks`, `Scan.View.breaks`): whether commands may fail at all, which mailboxes refuse SELECT and which UIDs go
unanswered. It is any value, and it is what lets a contract say that nothing else is a reason to fail, to skip or to
leave out. Each atomic effect is an `Event`; the ghost field `events` of
`Host` is the history of them. A crash leaves what some beginning of the history left, so a claim "at every
moment" is a claim about `Begins(p, es)`: every beginning p of the history es. `Events.Replay` gives the world
after a history.

On that environment the methods do what the program does, and are proved against statements about histories:

- `Moves`, `Imapx`: `MoveUIDs` with its two refinements of "move". At every moment every message is in the
  source or in the destination; COPY, STORE \Deleted and UID EXPUNGE (section 2.1 of RFC 4315) amount to a
  UID MOVE when all three complete.
- `Auditor`, `WriteAhead`, `Soundness`, `Rules`, `Apply`, `Execute`, `Preview`, `PlanRun`, `RunHistory`: a run, from the
  decisions of a plan to the counts the run history shows. `Soundness.Ahead` is the write-ahead guarantee, which
  holds at every moment of the delete phase on either path, and `Soundness.Landed` what the run can have left in Trash
  by then; `WriteAhead.Inv` says besides what the server is, and holds at every moment with MOVE and between batches
  without. `Apply.Authorised` is what must be true of every
  message a run records its intent to move, and so of every message it acts on.
- `UndoPlan`, `Undo`, `UndoPolicy`: undo for any log and any server, by any path and under failure anywhere.
- `Entitlement`, `Recovery`, `Halfway`, `Resumption`, `EndToEnd`: a delete run that stops at any moment, by a crash or a
  refused command, with any part of the log beyond its durable part lost, and then undo, itself interrupted any number
  of times. What undo chooses, and when Trash and every mailbox come back, is stated as an if and only if.
- `UndoLimits`: the inputs that show the conditions of those theorems are needed.

Undo does not always give back exactly what a run took, and `Halfway.UndoAfterCrash` says when it does, for every
moment of every run on either path, every log remnant and every set of folders undo cannot open. Trash is as before if
and only if undo is due of every message as many copies as have arrived, or more and there are no others. Every other
folder holds as many of a message as before if and only if undo takes as many copies as are gone, all from the folder
of the first line for it. All mailboxes are as before if and only if no message is both in its folder and copied, undo
can tell the run's copies apart from others (`Entitlement.TellsApart`, a condition on the log and the server as undo
finds them), and the first line for each message gives the folder it came from.

With MOVE, and between batches without, no message is both in its folder and copied, and then being due what has
arrived is telling apart (`Halfway.NeatEvens`, `Recovery.UndoAtRest`). A log whose messages were each recorded from one
folder, or are confirmed, is enough for that (`Recovery.ClearTellsApart`), given that undo refuses no source folder,
which `EndToEnd.DeletesArePermitted` derives for any run of this program. Inside a batch of COPY, STORE and UID EXPUNGE
it is not: undo takes a message it sees in its folder for one that never moved and leaves its copy in Trash
(`UndoLimits.CopyLeftBehind`). With such a log Trash is as before if and only if there is no such message, and no
message is missing from any folder in any case (`Halfway.ClearEvens`).

An undo that was interrupted after it restored some copies of a message has forgotten that. Completed in the end, it
leaves Trash as before, the log being clear, if and only if no such message had copies in Trash before the run
(`Recovery.CompleteRerun`). With no such copies at all, and any log, it does if and only if the undo that completes is
due as many copies of each message as it finds left in Trash, on either path and wherever the run and the undos before
stopped (`Resumption.InterruptedUndo`); a clear log ensures that if no message was both in its folder and copied, so
then interruptions make no difference (`Resumption.InterruptedMoves`). `UndoLimits` has concrete mailboxes where the
log is not clear, with and without prior copies in Trash, and where a rerun meets one.

## The other machines

- `Store`, `Scan`: the messages and folders tables, and the incremental scan of one folder. Wherever a scan is
  cut off, a whole scan from there ends as a whole scan from the start would have.
- `Unsub`: the unsubscribe executor as a step system over goroutines, per-host slots, a semaphore and the redirects
  of a GET, and a class whose `Run` interleaves the steps in any order.
- `ReviewRows`, `Review`: the review screen as a class driven by key presses.
- `ConfigEdit`: the merge of an account into the owner's YAML; `ListUnsubscribe`: the header's links;
  `Clean`: escape sequences out of header text; `Sanitizer`: the demo recorder's splitter.

Where the code and its documentation differ the model follows the code: README.md:63 says \Deleted is never
set, and internal/imapx/imapx.go:540-551 sets it on servers without MOVE; docs/design.md:97 promises one request
a second per host, and the executor spaces reserved slots, not requests, and no slot is taken to follow a redirect
(`Unsub.PacedExactly`, `Unsub.LongRunRate`); internal/unsub/unsub.go:297 says a GET follows up to FollowRedirects
redirects, and the check at internal/unsub/unsub.go:326 counts the first request, so that it follows one fewer
(`Unsub.Follows`); docs/design.md:99 speaks of a Gmail message ID check, and only the Message-ID is compared.

## Model

| member | source | states |
|---|---|---|
| Host.Host.Command | internal/imapx/imapx.go:520-554 | a command acts on distinct messages of the selected mailbox, may stop after any of them in any order, and has acted on all of them if it reports success |
| Host.Host.UidExpunge | internal/imapx/imapx.go:550-551 | only named messages that carry \Deleted go, whatever else in the mailbox carries it |
| Moves.KeptRun | internal/imapx/imapx.go:535-551 | no beginning of one command's events loses a given message, provided it was untouched before it is copied or moved and its copy exists before it is expunged |
| Moves.CommandKeeps | internal/imapx/imapx.go:535-551 | the same for every message at once, with what is then known of each |
| Moves.CopiesAsMoves | internal/imapx/imapx.go:541-543 | copying messages is moving them with the originals left behind: the two histories differ by exactly the originals |
| Moves.FallbackIsMove | internal/imapx/imapx.go:541-551 | COPY, STORE \Deleted and UID EXPUNGE of the same messages, all complete, leave the very server a UID MOVE would |
| Imapx.ChunkUids | internal/imapx/imapx.go:396-409 | the batches in order are the list, none is empty or over the size, and all but the last are full |
| Imapx.MoveUIDs | internal/imapx/imapx.go:520-554 | at every moment every message is still in the source or has its own copy in the destination; only the given messages are acted on, none is copied twice or marked before it is copied; success means exactly the list has moved; without MOVE and UIDPLUS nothing happens; it fails only for that, for a missing mailbox or message, or with a command |
| Imapx.FallbackKeepsLedger | internal/imapx/imapx.go:541-551 | the three commands of the fallback, each stopped anywhere, lose nothing, and complete they extend the move history by a move |
| Imapx.FetchFlags | internal/imapx/imapx.go:454-478 | every message there is that the server answers for is in the answer with its flags, an unanswered UID is absent rather than clean, and it fails only if the connection does |
| Imapx.FetchIdentity | internal/imapx/imapx.go:483-512 | likewise for Message-ID and subject |
| Imapx.SearchMessageId | internal/imapx/imapx.go:559-579 | exactly the messages of the selected mailbox with that Message-ID; an empty one is an error |
| Auditor.Auditor.Write | internal/apply/audit.go:94-101 | a line reaches the file once or the failure is remembered for good |
| Auditor.Auditor.Sync | internal/apply/audit.go:108-117 | success means no write has failed so far and every line is durable |
| WriteAhead.InvMoveRun | internal/apply/phases.go:472-479 | a UID MOVE of messages whose pending lines are durable keeps the write-ahead invariant at every moment, however far it gets |
| Soundness.AheadCarried | internal/imapx/imapx.go:535-551 | any commands on recorded messages that lose nothing, UID MOVE or the fallback, keep the guarantee wherever they are stopped |
| Soundness.LandedCarried | internal/imapx/imapx.go:535-551 | commands that copy no message twice and mark none before it is copied leave in Trash, wherever they are stopped, what it held and copies of messages of the run, one of each at most and all younger |
| Soundness.TouchedIsRecorded | internal/apply/phases.go:453-489 | under the guarantee every message not as it was was outside Trash and has a durable pending line with its folder, UID and Message-ID, and if it is gone its own copy in Trash |
| Soundness.ConfirmedIsGone | internal/apply/phases.go:480-489 | every UID a done line lists is gone from its place; what is touched and not confirmed is at most 200 messages of one folder |
| Soundness.SoundTransit | internal/imapx/imapx.go:535-551 | a batch on its way keeps the guarantee at every moment, and a completed fallback leaves the invariant of a server with MOVE |
| WriteAhead.IntendsInv | internal/apply/phases.go:457-465 | so does writing the pending lines of one batch |
| WriteAhead.DoneInv | internal/apply/phases.go:483-489 | so do the done line of a batch that moved and its fsync |
| WriteAhead.TakenIsRecorded | internal/apply/phases.go:453-489 | under the invariant of a server with MOVE every message gone from its place is in Trash, exactly once and unchanged, and a durable pending line has its folder, UID and Message-ID |
| WriteAhead.ConfirmedHasMoved | internal/apply/phases.go:480-489 | every UID a done line lists really moved; what moved and is not confirmed is at most 200 messages of one folder |
| Rules.LowerMeaning | internal/apply/phases.go:550-560 | two texts are the same lower-cased exactly if they are equal letter by letter but for the case of A to Z |
| Rules.NeverSourceMeaning | internal/apply/apply.go:212-240 | the names never deleted from nor restored into are exactly the nine written out |
| Rules.FlagVerdictMeaning | internal/apply/phases.go:550-560 | a message is passed exactly if no flag of it, anywhere in the list and in any case, is \Flagged or \Answered |
| Rules.ProtectsMeaning | internal/apply/phases.go:550-560 | the flags that protect are exactly \Flagged and \Answered, in any case |
| Rules.FlagReason | internal/apply/phases.go:550-560 | the reason given is that of the first such flag |
| Rules.EligibleIsCleared | internal/apply/phases.go:518-548 | given truthful answers the rules pass exactly the messages the server answered for that are the ones scanned, unmarked then and now, and not transactional unless waived |
| Rules.ReasonIsTrue | internal/apply/phases.go:518-548 | whatever reason a message is refused for is true of it: flags or identity unanswered, marked as scanned or live, not the message scanned, or kept for the category or phrase named |
| Store.Store.MessagesForSender | internal/store/message.go:132-157 | exactly the sender's rows in scope, each once |
| Store.Store.InsertMessages | internal/store/message.go:60-101 | all rows replaced by position in order, or on an error none |
| Store.Store.DeleteMessageRows | internal/store/message.go:159-183 | exactly the rows of the UIDs in that folder go, or on an error none |
| Store.Store.ResetFolder | internal/store/folder.go:36-54 | the folder's rows and cursor start over together, other folders untouched |
| Audit.TotalBump | internal/apply/apply.go:529-537 | counting one more reason adds one to the sum of all reasons |
| Apply.Runner.SkipMessage | internal/apply/apply.go:529-532 | one skip raises the count, one reason and the log's tally together |
| Apply.Runner.RecordBatch | internal/apply/phases.go:457-470 | either a pending line for every message of the batch is durable or the batch does not go on, having written lines for some of it only |
| Apply.BatchSound | internal/apply/phases.go:457-489 | one batch, on either path and whichever step of it fails, keeps the write-ahead guarantee at every moment, and no command acts on a message before a durable line names it |
| Apply.Runner.MoveOneBatch | internal/apply/phases.go:446-496 | the guarantee holds at every moment; rows are dropped only for messages a durable done line confirms; a failed batch drops none; nothing outside the batch and Trash changes |
| Apply.Runner.MoveEligible | internal/apply/phases.go:446-497 | all eligible messages of a folder in batches of at most 200 with the guarantee at every moment; on success each is confirmed, counted and its row gone |
| Apply.IndexRows | internal/apply/phases.go:411-420 | the UIDs ascending, each once, and the first row of each |
| Apply.Runner.Screen | internal/apply/phases.go:432-444 | exactly the messages that pass every rule are left, every other one is counted and logged as skipped |
| Apply.Runner.OpenFolder | internal/apply/phases.go:393-409 | a folder is opened exactly if it is not protected, was scanned, opens, and its stored nonzero UIDVALIDITY is the live one; else the reason is the one that applies, spelled out |
| Apply.Runner.MoveScreened | internal/apply/phases.go:446-497 | what the screening left is moved unless the log has failed; on success all of it is confirmed and gone, and it fails only for a fault |
| Apply.Runner.DeleteFolder | internal/apply/phases.go:392-499 | every pending line it writes is authorised; the guarantee holds at every moment on either path; rows go only after confirmation; messages elsewhere are untouched; moved plus skipped grows by the number of rows; on success every authorised message the server answers for is confirmed, and a folder left out was shut for the reason given |
| Apply.Runner.SkipFolder | internal/apply/phases.go:379-390 | every message of the folder is counted and logged, and nothing else happens |
| Execute.DeleteTargets | internal/apply/phases.go:23-36 | one target for each entry that deletes, in plan order, with exactly the rows in its scope |
| Execute.GroupByFolder | internal/apply/phases.go:318-336 | every row of every target in its folder's list, in order, and no folder without rows |
| Execute.AllRowsDistinct | internal/apply/phases.go:318-336 | with distinct sender keys no message is targeted twice |
| Execute.ProtectedFolders | internal/apply/phases.go:360-377 | the set has the well-known names, the resolved Trash and every special-use mailbox found, and nothing else |
| Execute.DeleteFolders | internal/apply/phases.go:338-346 | over any order of folders every intent is authorised against the server the phase started with, nothing is acted on without one, and on success every authorised message that is answered for is confirmed |
| Execute.DeleteAll | internal/apply/phases.go:287-347 | the phase as a whole, on either path: the guarantee at every moment, every intent authorised; with a Trash, success means every authorised message that is answered for is confirmed and gone, every other one skipped, and each folder left out was shut for the reason given; without one nothing moves and all is skipped for that; it fails only for a fault |
| Execute.EveryMoment | internal/apply/phases.go:392-496 | at every moment, whatever commands the server has: a message acted on or no longer as it was is authorised, outside Trash, and named by a durable pending line with its Message-ID; one that is gone has its own copy in Trash; one confirmed is gone; what is touched and not confirmed is at most 200 messages of one folder |
| Preview.FilterProtected | internal/apply/apply.go:414-480 | the entries kept and the skip lines are those of the decisions, in order, and each reason is counted as often as its lines |
| Preview.ProtectedMeaning | internal/apply/apply.go:443-464 | a sender is protected by its key or by the list, matched on what the database has of it and on the decision's own address only where it has none; likewise for the user's own address |
| Preview.NotesFor | internal/apply/apply.go:447-478 | every decision dropped or cut down has a skip line with its sender and the reason that applies |
| Preview.AdmittedExactly | internal/apply/apply.go:437-478 | an entry runs exactly if it is an unprotected decision that still asks for something once deleting everything from the user's own address is taken off |
| Preview.AdmittedDistinct | internal/apply/apply.go:437-478 | distinct senders in the plan stay distinct |
| Preview.RowFor | internal/apply/phases.go:90-101 | messages, bytes and kept of one sender; messages and kept together are what the row would show with the keep rule waived, and nothing is kept where it does not apply |
| Preview.PreviewRun | internal/apply/phases.go:39-116 | a row for each entry, with what it would move and what the keep rule holds back, and totals that are the rows' sums; it fails only if the database does |
| Preview.ScopeExact | internal/store/message.go:132-157 | the rows in an entry's scope are the sender's, all or those with an unsubscribe link as it asks, each once |
| Preview.RowExact | internal/apply/phases.go:84-101 | a row counts exactly the messages that were scanned unmarked, outside the folders never deleted from, and not kept unless it waives that, and their size |
| Preview.AuthorisedIsCounted | internal/apply/phases.go:164-185 | any message a run may record its intent to move is one its sender's preview row counts |
| Preview.SenderBound | internal/apply/phases.go:84-101 | for any live flags, identities and subjects a sender's moved messages and bytes never exceed its row |
| Preview.TotalBound | internal/apply/phases.go:102-104 | nor in total |
| Preview.RunBound | internal/apply/phases.go:39-116 | of a run, on either path: no more messages or bytes of a sender are acted on than its row shows, nor in total |
| PlanRun.WritePending | internal/apply/apply.go:324-326 | every skip decided before the log existed is in it, in order |
| PlanRun.RecordUnsubs | internal/apply/phases.go:263-284 | the summary's outcomes are the results' and the log's, which has one line for each result, with its sender and outcome |
| PlanRun.CountsMeaning | internal/apply/phases.go:263-284 | the summary counts as many of each outcome as there are results with it |
| PlanRun.ReportsShown | internal/tui/backend_admin.go:242-257 | the links the history asks to look at are exactly the results that were manual, probable or failed, each under the sender it is for |
| PlanRun.ExecuteRun | internal/apply/apply.go:315-343 | a run that ends without error adds up: moved plus skipped is the targeted messages, moved is what the log confirms and that is gone, and the log tells the same number for each reason and outcome as the summary; every authorised message the server answers for has moved; it fails only for a fault; wherever it ends, the write-ahead guarantee held at every moment on either path |
| PlanRun.CoveredIsAuthorised | internal/apply/apply.go:437-480 | every message an unprotected decision asks for, in a folder that may be read and passed by the rules, is one the run is to move: the converse of the next two |
| PlanRun.DecidedOnly | internal/apply/apply.go:437-480 | at every moment of a run of a plan, whatever commands the server has, a message acted on or no longer as it was is of the sender of an unprotected decision, in the scope that decision still asks for, and passes the rules, the keep rule waived only by such a decision |
| PlanRun.ApplyPlan | internal/apply/apply.go:277-343 | the same of a plan filtered and then run, with the guarantee at every moment; without error every message a standing decision asks for, in a folder that may be read, is confirmed and gone if the server answers for it, the skipped senders are the decisions refused or cut down, and the log agrees with the summary |
| RunHistory.RunDetail | internal/tui/backend_admin.go:220-266 | the replay shows the log's tally: moved, skips under the name each line has and errors under theirs, unsubscribe outcomes, and the links that need attention |
| RunHistory.RunSkips | internal/tui/backend_admin.go:239-262 | a run's skips have no status, so all are shown under one name and the reasons are in the log alone |
| UndoPlan.ReadLog | internal/undo/undo.go:49-109 | the two passes over the log give, per Trash folder and Message-ID, first source, number recorded and unconfirmed UIDs |
| UndoPlan.NewestUnique | internal/undo/undo.go:252-256 | there is one choice of the k newest copies |
| UndoPolicy.WantsMeaning | internal/undo/undo.go:81-109 | undo wants exactly the messages some move line of the account names, as often as they are named, for the folder of the first such line, all written out over the lines |
| UndoPolicy.ConfirmedMeaning | internal/undo/undo.go:60-80 | a message counts as confirmed exactly if a done line of the account lists it for its folder |
| UndoPolicy.QuotaMeaning | internal/undo/undo.go:188-208 | a message's quota is what the log records of it less, if the source opened, its recorded copies still there, and nothing if the source has one of the nine names or is marked special-use |
| UndoPolicy.MissingMeaning | internal/undo/undo.go:225-250 | reported as missing is exactly what must not be restored, and what is due and not in the Trash folder |
| Undo.RefusesMeaning | internal/undo/undo.go:230-310 | undo refuses a folder exactly if its name is one of the nine or that of a mailbox found to be special-use |
| Undo.CheckNever | internal/undo/undo.go:160-210 | after the check each count is the quota, and the server unchanged; a source keeps its counts only if it would not open and has something to check, and it fails only if there is something to check and a command may fail |
| Undo.LastAreNewest | internal/undo/undo.go:249-256 | the last k of the sorted UIDs are the k highest |
| Undo.Locate | internal/undo/undo.go:220-263 | chosen are, of every wanted message, the newest copies up to its quota, each for its own source, and missing counts the refused and the absent |
| Undo.MoveAllBack | internal/undo/undo.go:265-280 | every event acts on a chosen message and every arrival is in the folder chosen for it; complete, all of them moved |
| Undo.RestoreFrom | internal/undo/undo.go:212-280 | one Trash folder's part of an undo is in order, also when it fails |
| Undo.Run | internal/undo/undo.go:27-289 | the whole undo is its checks and then one such part for each Trash folder at most once, all of them when complete, with nothing done if there is nothing to undo or the prompt is declined; nothing ever arrives in a folder with one of the nine names or marked special-use; without an error the log has a line for each message restored; it fails only for one of those two, a fault, or a folder or message that is not there |
| UndoPolicy.PartBounded | internal/undo/undo.go:225-284 | for any log and server: only messages the log names are touched, at most the quota of each, the highest UIDs first, and none goes into a folder with one of the nine names or marked special-use |
| Entitlement.CrashWitnessed | internal/apply/phases.go:453-489 | whatever a crash leaves of the log, from the durable part up, names everything that moved and confirms nothing that did not |
| Entitlement.WantsOfRun | internal/undo/undo.go:81-109 | from a run's log undo wants each recorded message as often as it was recorded, and counts as never moved its unconfirmed UIDs that are still there |
| Entitlement.QuotaIsDue | internal/undo/undo.go:167-208 | what undo is due of a message: the recorded copies less those it sees in the folder of the first line, if it can open that; nothing if it refuses it |
| Entitlement.Entitled | internal/undo/undo.go:156-208 | from a clear log undo is due no fewer copies than the run took, and exactly as many if it can look in the source |
| Entitlement.NewestSplit | internal/undo/undo.go:249-256 | the n newest of older and newer copies are the newer ones if and only if there are n of those, or fewer but no older ones |
| Entitlement.ChosenExact | internal/undo/undo.go:225-263 | for any run, crash and earlier undos: undo chooses exactly the run's messages in Trash if and only if of every Message-ID it is due as many as are there, or more and there are no others |
| Entitlement.ChosenOfRecoverable | internal/undo/undo.go:225-263 | undo chooses every message of the run that is in Trash, and nothing else if and only if no message it has restored a copy of had copies in Trash before |
| Entitlement.TellsApartBalances | internal/undo/undo.go:156-256 | with nothing restored yet that comes to a condition on the log and the server as undo finds them |
| Recovery.ReturnRun | internal/undo/undo.go:265-280 | at every moment of an undo each message of the run is in Trash or where its line says |
| Recovery.AllOut | internal/undo/undo.go:212-285 | with nothing of the run left in Trash, Trash is as it was, and every mailbox is too if and only if each message went to its own folder |
| Recovery.TrashBefore | internal/undo/undo.go:265-280 | Trash is as before the run if and only if undo took out of it exactly the run's messages that were in it |
| Recovery.AttemptLeaves | internal/undo/undo.go:167-285 | a completed undo, wherever others before it stopped: Trash as before exactly if it was due exactly what it found of the run, every mailbox too exactly if first lines also give own folders |
| Recovery.CompleteUndo | internal/undo/undo.go:27-289 | one completed undo leaves Trash exactly as before the run if and only if undo can tell the copies apart, and every mailbox with its messages if and only if, besides, the first line for each gives its own folder |
| Recovery.CompleteRerun | internal/undo/undo.go:167-285 | one completed after interrupted ones leaves Trash as before the run if and only if no message of which a copy was restored had copies in Trash before |
| Recovery.UndoCanComplete | internal/undo/undo.go:212-285 | undo is never stuck: whatever a crash or an interruption left, there is a choice for it to make and a way to carry it out to the end |
| Recovery.UndoneIsAttempt | internal/undo/undo.go:27-289 | what `Undo.Run` does on a server with MOVE is an attempt of the kind these theorems are about; on another, a completed run leaves what a completed attempt would |
| Recovery.UndoAtRest | internal/undo/undo.go:49-285 | with no batch under way, that is at any moment with MOVE, part way through a MOVE included, and between batches without: one completed undo on either path leaves Trash exactly as before if and only if it can tell the copies apart, and every mailbox if and only if first lines also give own folders |
| Recovery.ClearTellsApart | internal/undo/undo.go:156-208 | undo tells everything apart if each message was recorded from one folder or is confirmed, no folder is refused, and those with something to check open |
| Halfway.UndoAfterCrash | internal/undo/undo.go:49-285 | after a stop at any moment of a delete run on either path, with any part of the log beyond its durable part lost, one completed undo on either path: Trash as before if and only if it was due of every message what had arrived, or more and there were no others; as many of a message in every other folder as before if and only if it took as many as were gone, all from the folder of the first line; every mailbox as before if and only if no message was in its folder and copied, it could tell the copies apart, and first lines give own folders |
| Halfway.CrashTraced | internal/apply/phases.go:453-489 | whatever a stop leaves of the log, from the durable part up, names all that was touched and confirms nothing that is still there |
| Halfway.ArrivedCount | internal/imapx/imapx.go:540-551 | as many copies of a message have arrived in Trash as are gone from their places or are in their places and copied |
| Halfway.TrashEvens | internal/undo/undo.go:212-285 | the first of these equivalences, for Trash |
| Halfway.CountsRepaid | internal/undo/undo.go:212-285 | the second, for how many of a message each other folder holds |
| Halfway.NeatEvens | internal/undo/undo.go:156-256 | with no message in its folder and copied, being due what has arrived is telling the copies apart |
| Halfway.ClearEvens | internal/undo/undo.go:156-208 | from a clear log, nothing refused and all sources open, undo is due what has arrived if and only if no message is in its folder and copied; and in any case it takes exactly what is gone of every message recorded from one folder |
| Halfway.UndoGoesOn | internal/undo/undo.go:212-285 | wherever the run stopped, undo has a choice to make and a way to carry it out to the end |
| Resumption.UndoneIsEffort | internal/undo/undo.go:27-289 | what `Undo.Run` does, on any server and wherever it ends, is an undo of the kind the next theorems are about |
| Resumption.NextEffort | internal/undo/undo.go:167-285 | with no prior Trash copies an undo, on either path, wherever it stops and whatever part of its own lines is lost, takes only what has arrived and leaves a state undo can go on from; completed, it leaves nothing of the run in Trash if and only if it was due as many copies of each message as were there |
| Resumption.InterruptedUndo | internal/undo/undo.go:167-285 | after a stop of the run at any moment, interrupted at any moment any number of times and then completed, all on either path, with no prior Trash copies and any log: Trash as before the run if and only if the undo that completed was due as many copies of each message as it found left in Trash; undos after that, however many, do nothing; a clear log undo refuses nothing of is enough if no message was in its folder and copied |
| Resumption.InterruptedMoves | internal/undo/undo.go:167-285 | then, the interrupted ones having moved as with MOVE: every mailbox as before the run if and only if no message was in its folder and copied and first lines give own folders, and every mailbox as one uninterrupted undo that was due as much leaves it |
| UndoLimits.RerunTakesOlderCopy | internal/undo/undo.go:249-256 | a concrete mailbox where an undo started again after an interruption takes a copy Trash had before the run |
| UndoLimits.HalfBackReached | internal/undo/undo.go:265-280 | that mailbox is where a run that keeps the write-ahead invariant and an interrupted undo lead |
| UndoLimits.ShadowedUndo | internal/undo/undo.go:188-208 | a concrete mailbox without prior Trash copies where, the log not being clear, a completed undo leaves a copy of the run in Trash and the next undo moves it |
| UndoLimits.SecondFolderOvercounts | internal/undo/undo.go:102-113 | a concrete mailbox where recording one Message-ID from two folders makes undo take a copy Trash had before the run: it cannot tell the copies apart |
| UndoLimits.CopyLeftBehind | internal/imapx/imapx.go:540-551 | a concrete run without MOVE that keeps the guarantee at every moment, stopped after a COPY: the log is clear, undo can tell the copies apart, and every completed undo leaves the copy in Trash |
| EndToEnd.DeletesArePermitted | internal/apply/phases.go:360-377 | undo refuses no folder of a log a delete phase wrote, on either path, if it refuses no more than that phase protected |
| EndToEnd.DeleteCrashUndo | internal/apply/phases.go:287-347 | the delete phase, stopped at any moment of it on either path, and a completed undo: all three equivalences; with a clear log and sources that open, Trash as before if and only if no message was in its folder and copied, which holds at rest, and of messages recorded from one folder every other folder holds as many as before in any case |
| EndToEnd.DeleteInterruptedUndo | internal/apply/phases.go:287-347 | the delete phase, stopped at any moment of it on either path, and interrupted undos: Trash as before if and only if the one that completes was due what was left, which a clear log ensures at rest |
| Scan.ChunkHi | internal/scan/scan.go:301-309 | in 32 bits without wraparound a chunk ends within the range and is full unless it is the last |
| Scan.FetchHeaders | internal/imapx/imapx.go:273-326 | on success exactly the rows of the messages that answered, and the highest UID that did, in whatever order they came |
| Scan.InsertResumable | internal/scan/scan.go:211-213 | rows written before their cursor do not change what a whole scan ends with |
| Scan.CursorResumable | internal/scan/scan.go:214-216 | nor does the cursor written after its rows |
| Scan.ScanChunk | internal/scan/scan.go:193-216 | a chunk cut off anywhere leaves a database to resume from; complete, it swept its UIDs |
| Scan.SweepChunks | internal/scan/scan.go:186-229 | the loop ends, its chunks tile the UIDs above the cursor, and it leaves exactly the swept range |
| Scan.TilesExactly | internal/scan/scan.go:186-229 | each UID of the range is in exactly one chunk and no other UID is in any |
| Scan.OpenIdempotent | internal/scan/scan.go:234-272 | an open-ended sweep repeated changes nothing |
| Scan.RunOpenRange | internal/scan/scan.go:234-272 | the rows that answered are in and the cursor is the highest of them, or the database is one to resume from |
| Scan.ResultMeaning | internal/scan/scan.go:149-272 | of a whole scan: with a stored UIDVALIDITY that is nonzero and not the live one the folder's rows are rows of the server alone, all that answered, and its cursor starts over; else no row goes away, those above the cursor are the server's and those up to it stay as they are, but for the last message's if UIDNEXT is unknown; the cursor ends at UIDNEXT - 1 or the highest UID that answered; other folders stay as they are |
| Scan.RunFolder | internal/scan/scan.go:149-230 | at every moment a whole scan from the database as it is ends with the rows and the cursor of a whole scan from the start; success leaves those, and what they are is said over the tables and the server alone; the chunks tile the UIDs above where it starts, and each one's end was written as the cursor; it fails only for a fault |
| Scan.ScanAgain | internal/scan/scan.go:167-181 | a scan of an unchanged folder after a whole one changes nothing |
| Unsub.SemStep | internal/unsub/unsub.go:512-523 | every step keeps the semaphore's count equal to its holders and within its size, on every exit path |
| Unsub.SlotsStep | internal/unsub/unsub.go:534-541 | every step keeps each host's slots an interval or more apart |
| Unsub.TicketsStep | internal/unsub/unsub.go:488-555 | every step keeps the requests that take slots on slots of their own, none started before its slot; the hops of a redirect take none |
| Unsub.JobsStep | internal/unsub/unsub.go:157-202 | every step keeps each goroutine on a job its target calls for, the GET fallback included, and each result one that target can have |
| Unsub.KeyMeaning | internal/unsub/unsub.go:244-400 | a web request counts against the host of its link and a mail against the mail server |
| Unsub.ToldStep | internal/unsub/unsub.go:157-400 | every step keeps each goroutine's result what the ends heard of so far have earned it |
| Unsub.StepKeeps | internal/unsub/unsub.go:137-202 | every interleaving keeps the executor's invariant |
| Unsub.RateLimited | internal/unsub/unsub.go:488-555 | two requests to one host that take slots are on slots at least an interval apart and not before them, with at most MaxInFlight exchanges in flight |
| Unsub.LongRunRate | internal/unsub/unsub.go:525-555 | of n requests to one host that take slots the last starts at least n - 1 intervals after its first slot |
| Unsub.HopsBounded | internal/unsub/unsub.go:324-331 | redirects add at most the limit less one for each request that took a slot, to any hosts and in no time |
| Unsub.HopsStep | internal/unsub/unsub.go:324-331 | every step keeps the redirects followed, with those requests in flight may still follow, within that |
| Unsub.NoDeadlock | internal/unsub/unsub.go:137-202 | while a goroutine is not done one can take a step, if need be after waiting, even with MaxInFlight 1 |
| Unsub.StepCounts | internal/unsub/unsub.go:157-202 | each goroutine takes a bounded number of steps, redirects included |
| Unsub.PacedExactly | internal/unsub/unsub.go:324-541 | every run keeps the requests to each host, redirects included, an interval apart if and only if the interval is zero, the run was cancelled before it began, or no two targets share a host, no one-click can fall back, and either no redirect is followed or no target calls for a GET |
| Unsub.TwoBunch | internal/unsub/unsub.go:492-495 | from any start, two targets of one host can have their requests start at the same moment: slots are spaced, requests need not be |
| Unsub.FallbackBunches | internal/unsub/unsub.go:170-182 | so can one redirected one-click and its own GET |
| Unsub.RedirectBunches | internal/unsub/unsub.go:324-331 | so can one GET that is redirected to its own host and the hop that follows |
| Unsub.ReachesKeeps | internal/unsub/unsub.go:137-202 | the invariant holds in every reachable state |
| Unsub.Executor.ReserveSlot | internal/unsub/unsub.go:501-541 | the limiter's locked section hands out the next slot of the host and remembers the one after |
| Unsub.Executor.TakeStep | internal/unsub/unsub.go:157-202 | the executor's fields change as the step system says |
| Unsub.Executor.Run | internal/unsub/unsub.go:137-155 | for any interleaving it ends with the semaphore free, and result i is what target i earned by the ends its requests came to: a one-click exactly for one-click targets with a web link, a GET for the others with one, a mail only with no web link; the link is the first https one if there is any; an answer 2xx is ok for a one-click and probable for a GET, an accepted mail ok; a redirected one-click is followed by a GET exactly if that is allowed, which counts if it gets through; a request is given up only if it is refused or the run cancelled |
| ReviewRows.BaseItems | internal/tui/model.go:89-173 | one pass merges the groups into a row for each domain in order of appearance |
| ReviewRows.DomainsMeaning | internal/tui/model.go:99-116 | there is one row for each domain that has a sender, in the order in which they first appear |
| ReviewRows.MergedRow | internal/tui/model.go:101-160 | a domain row has exactly the domain's senders and the sums of their counts, and is protected, decided or still sending exactly if one of them is |
| ReviewRows.BaseRows | internal/tui/model.go:89-173 | every row, sender or domain, says what is true of its members, and so do the rows under it |
| ReviewRows.SectionMeaning | internal/tui/model.go:354-367 | a row is in the section its data calls for: protected, else kept as decided, else still sending, else bulk |
| ReviewRows.AllAccounted | internal/tui/model.go:354-367 | every matching row is hidden or in exactly one section, and the hidden ones are exactly those the display leaves out |
| ReviewRows.BuildTable | internal/tui/model.go:346-392 | the table is the sections in order and hidden is the rows left out |
| ReviewRows.TableMeaning | internal/tui/model.go:369-392 | sections ascend, each header counts its section's rows, and those rows are there in the order chosen unless it is collapsed |
| ReviewRows.TableHas | internal/tui/model.go:369-392 | the table has the headers of the sections that have rows, their rows, the members of the expanded ones, and nothing else |
| ReviewRows.TableRows | internal/tui/model.go:369-392 | every row of the table says what is true of its members |
| Review.ChangeAllAt | internal/tui/model.go:588-598 | a key changes of each sender in the row the one field, and of no other sender anything |
| Review.TriMeaning | internal/tui/model.go:536-569 | a checkbox is full or empty exactly if every sender behind it is |
| Review.ActingMeaning | internal/tui/update.go:121-185 | over the selections before and after: each bulk key sets its one field for every sender of an unprotected row of the cursor's section, each toggle turns its one field over for every sender of the row, a row that asks first asks about its senders, protecting clears them, and no other sender or field changes |
| Review.AnsweredMeaning | internal/tui/update.go:246-285 | the same for the answer to a question: yes sets the one field for the senders asked about |
| Review.ShownMeaning | internal/tui/update.go:86-120 | likewise what a key changes of the display |
| Review.MovedMeaning | internal/tui/model.go:648-695 | up, down and the page keys move the cursor that far within the table, top and bottom take it to the first and the last row |
| Review.CellsMeaning | internal/tui/model.go:439-475 | of each of the four fields a row shows whether all, some or none of its senders have it, and a protected row shows none |
| Review.Review.ClampOffset | internal/tui/model.go:663-684 | of the offsets that keep the cursor in the window and the window in the table, the one nearest to where the window was |
| Review.NextRowMeaning | internal/tui/model.go:625-645 | the next row in a direction is the nearest: everything between is headers |
| Review.Review.SkipHeader | internal/tui/model.go:625-645 | the cursor goes from a header to the next row in the direction, else to the next in the other, else stays |
| Review.RestoredMeaning | internal/tui/model.go:403-435 | the cursor comes back to its row, else to its section's header, else to the first row |
| Review.Review.Rebuild | internal/tui/model.go:346-401 | the table is the one the settings call for, inside the window, with the cursor on the row with the key it was on, else on the header it was on, else on the first row |
| Review.Review.Toggle | internal/tui/update.go:385-400 | an unprotected row's senders change and no other's; a protected row's do not |
| Review.Review.Bulk | internal/tui/update.go:406-419 | exactly the senders of the unprotected rows of the cursor's section change |
| Review.Review.ProtectCurrent | internal/tui/update.go:421-437 | the row's senders become protected, are newly so once each, and lose their selections |
| Review.Review.Escalate | internal/tui/update.go:295-341 | an escalation toggles once it was acknowledged, and asks before; the question remembers its senders and the value to set |
| Review.Review.StartIncludeKept | internal/tui/update.go:318-341 | nothing happens without a delete on an unprotected row |
| Review.Review.HandleConfirm | internal/tui/update.go:246-285 | yes sets the one field for the senders asked about and acknowledges it, no closes the question, any other key does nothing |
| Review.Review.HandleFilter | internal/tui/update.go:191-221 | leaving by esc restores the filter there was, by enter keeps the draft; the table follows what is typed |
| Review.Review.HandleKey | internal/tui/update.go:62-187 | any key in any mode does to the decisions, the display and the cursor what it is said to mean, over each sender's four fields before and after; no protected sender has a selection, every selection asks for something, escalations were acknowledged, newly protected senders are distinct, table and window are in order and fitted to the screen |
| Review.OthersUntouched | internal/tui/update.go:246-437 | a key press changes nothing about a sender it is not about, and unprotects nobody |
| Review.EscalationsWereAnswered | internal/tui/update.go:246-341 | over any run of key presses an escalation is acknowledged if and only if one of them said yes to a question about it |
| Review.ToggleTwice | internal/tui/model.go:588-598 | a toggle pressed twice restores a sender's selection if and only if include-kept does not go with the last thing asked for |
| Review.Review.Result | internal/tui/model.go:700-718 | one decision for exactly the senders with a selection, include-kept only with a delete, and nothing unless the plan was written |
| ConfigEdit.MergeMapping | internal/config/edit.go:120-145 | the loops compute the merge |
| ConfigEdit.MergeReads | internal/config/edit.go:120-145 | what every key reads as after a merge, and which keys there are |
| ConfigEdit.ReadsBack | internal/config/edit.go:120-145 | every key of the source reads back as the source has it, nested blocks exactly |
| ConfigEdit.OthersSurvive | internal/config/edit.go:136-144 | the owner's own keys come through with values, comments and order |
| ConfigEdit.KeysInOrder | internal/config/edit.go:120-145 | the keys of a merge are those there were, in order and with their comments, less the owned ones the source has dropped, and then the new ones of the source in order |
| ConfigEdit.CommentsStay | internal/config/edit.go:150-160 | a comment on a value written over stays unless the fresh value has its own, and on a block merged into it stays |
| ConfigEdit.MergeAgain | internal/config/edit.go:120-160 | merging again changes nothing, carried comments included |
| ConfigEdit.IndexOfAccount | internal/config/edit.go:255-269 | the first account of that name |
| ConfigEdit.UpsertAccount | internal/config/edit.go:77-100 | the account is merged into the first of its name or appended |
| ConfigEdit.UpsertMeaning | internal/config/edit.go:77-100 | the account reads back as written and no other account changes; if it was new, removing it restores the list |
| ConfigEdit.UpsertDrops | internal/config/edit.go:77-118 | of what the account had, only the nine keys the program owns can go, and they go exactly if the new account does not have them |
| ConfigEdit.RemoveAccount | internal/config/edit.go:174-192 | the first account of that name goes and all others stay in order; it is not found exactly if no account has the name |
| ConfigEdit.TakenOutOnce | internal/config/edit.go:174-192 | there is exactly one list that can be, if some account has the name |
| ListUnsubscribe.ReadCandidates | internal/headers/headers.go:92-125 | the index loop reads every candidate in order |
| ListUnsubscribe.ParseListUnsubscribe | internal/headers/headers.go:92-144 | the usable links, each once, where it first appears |
| ListUnsubscribe.ParsedLinks | internal/headers/headers.go:126-144 | of the candidates exactly the usable links are returned, each once, in the order in which they first appear |
| ListUnsubscribe.BracketWhole | internal/headers/headers.go:98-109 | what is in brackets is one candidate whatever commas it has |
| ListUnsubscribe.TokensMeaning | internal/headers/headers.go:59-72 | bare links with any commas and white space between them are read each as it is and in order |
| ListUnsubscribe.TrimMeaning | internal/headers/headers.go:59-68 | of a bare link white space goes from both ends, and only that |
| ListUnsubscribe.StripMeaning | internal/headers/headers.go:74-79 | white space goes from between brackets, and nothing else does |
| ListUnsubscribe.UnfoldMeaning | internal/headers/headers.go:49-55 | a line break with the blanks after it becomes one space, and text without one stays as it is |
| ListUnsubscribe.JoinsExactly | internal/headers/headers.go:98-125 | a header can be joined to anything that follows without changing what is read of either if and only if its brackets are closed |
| ListUnsubscribe.UnfoldJoin | internal/headers/headers.go:49-55 | unfolding does not reach across the joint |
| ListUnsubscribe.ParseJoin | internal/headers/headers.go:92-144 | a joined header parses to the two parses, each link once in order of appearance |
| ListUnsubscribe.ParseRepeated | internal/scan/scan.go:393-395 | so do any number of repeated headers, if the brackets of all but the last are closed |
| Clean.SkipSequence | internal/headers/headers.go:448-474 | an escape skip moves on and stays within the text |
| Clean.CleanText | internal/headers/headers.go:415-443 | the loop ends and computes the cleaned text |
| Clean.CleanedIsSafe | internal/headers/headers.go:415-443 | no C0, DEL or C1 control is left, and no white space but single spaces between words |
| Clean.CleanedTwice | internal/headers/headers.go:415-443 | cleaning twice is cleaning once |
| Clean.FieldsMeaning | internal/headers/headers.go:415-443 | of words with white space between and around them the words are what is read, each as it is and in order |
| Clean.WordsStay | internal/headers/headers.go:415-443 | so text without controls is left as it is but for its white space |
| Clean.SequencesGone | internal/headers/headers.go:425-474 | of plain text and whole escape sequences in any order, 7-bit or 8-bit, closed by BEL, ST or ESC \\, exactly the text is left, and what follows reads as on its own |
| Clean.SequenceGone | internal/headers/headers.go:448-474 | so a whole sequence goes wherever it stands, and nothing of it is left as text |
| Sanitizer.UnitStays | tools/demo/record.py:108-192 | a unit that is all there reads the same whatever follows it |
| Sanitizer.CsiMeaning | tools/demo/record.py:131-150 | a control sequence by its final and parameter bytes: scrolling becomes an operation with its count, what the emulator knows is fed, a query is answered and not fed, and the rest is dropped |
| Sanitizer.StringMeaning | tools/demo/record.py:152-178 | a control string up to its terminator: a query for a colour is answered and not fed, any other operating system command is fed, all others are dropped |
| Sanitizer.EscapeMeaning | tools/demo/record.py:180-194 | of other escapes a character set with its name and what the emulator knows are fed, the rest dropped |
| Sanitizer.WaitMeaning | tools/demo/record.py:125-166 | a lone ESC, a control sequence without its final byte and a control string without its terminator wait for more |
| Sanitizer.TwoReads | tools/demo/record.py:108-192 | reading on with the tail in front comes to the same as reading in one: pieces, queries, dropped sequences and tail |
| Sanitizer.AnyChunking | tools/demo/record.py:108-228 | however a stream is cut up, the same bytes, operations, queries to answer, dropped sequences and tail result, in the same order |
| Sanitizer.SameReplies | tools/demo/record.py:194-207 | two ways to cut up one stream are sent the same replies if and only if the reports of the cursor are given at the same positions, in order |
| Sanitizer.AsOneRead | tools/demo/record.py:297-298 | the replies are those of one read with the cursor at c if and only if every read that completes a query for the cursor had it at c |
| Sanitizer.LateReport | tools/demo/record.py:201 | a letter and then the query: read in two with the cursor moved on, the reply differs from that of one read |
| Sanitizer.Sanitizer.FeedBytes | tools/demo/record.py:108-228 | the loop makes progress and computes the read, with no empty feed and no two feeds next to each other, and replies with the cursor as it was before |

## Left out

- IMAP, SMTP, HTTP, DNS, TLS and OAuth traffic: the server is the state machine of `Host`, and replies, failures and time are choices.
- UIDs on the server are unbounded naturals; only the scan's own 32-bit arithmetic is modelled as such, and the exhaustion of a folder's UIDs is not.
- The audit file is whole lines: a torn last line, which the reader rejects (internal/apply/audit.go:137-141), is not modelled.
- Mailbox names are told apart by number, with their lower-cased text given by an arbitrary function; letters outside ASCII keep their case where flags and addresses are compared.
- Resumption.InterruptedMoves: an undo stopped inside a batch of its own on a server without MOVE can leave a message in Trash and restored, and the next undo restores it again. Of that `Resumption.InterruptedUndo` promises what becomes of Trash, not how often the message is then in its folder.
- Nothing but mailshear changes the server between the scan, the run and the undo: no other client and no delivery. What is said of live flags and identities is said of the server as it is when asked.
- Imapx.MoveUIDs: a move within one folder, where the destination is the selected mailbox, is not covered beyond which messages it acts on. The delete phase never asks for one, nor does an undo of a log a delete phase wrote.
- The recovery theorems are for one Execute for each run id: confirmation is by folder and UID, and running the same id again can count a message twice.
- Nothing is claimed of the destination of a delete being safe: `neverDest` only changes a line of the preview (internal/apply/phases.go:194).
- The order in which folders, Trash folders and senders are worked through is arbitrary in the model (by name in the program), as is the order of rows from the database.
- Undo.Run: recording the undo's summary in the runs table, the Gmail notice and the text of messages are not modelled.
- The `keep` phrases, the protect list's matching, URL parsing and address folding are arbitrary functions.
- The scan's senders table, progress reports, folder list and Gmail prefilter; a crash loses the senders seen in memory.
- Unsub.Executor.Run: goroutine scheduling is any interleaving of atomic steps; an HTTP exchange is its start, its redirects to any hosts and any reply, and the private-address check is a choice to refuse.
- Review: brand labels, the text of cells, notices, the help line, the detail pane's contents and opening links; sorting is any reordering, so the order inside a section is not claimed.
- ConfigEdit.MergeMapping: YAML nodes are values, so nodes shared between the new account and the document, aliases, tags and styles are not captured; reading and writing the file is left out.
- ListUnsubscribe.ParseListUnsubscribe: text is code points rather than bytes, and whether a candidate is a usable link beyond having no control character is an arbitrary predicate.
- Sanitizer.Sanitizer.FeedBytes: the reading of a repeat count is an arbitrary function of its text, and the emulator is not modelled: the cursor before each read is any cursor.
- The recorder's frame capping, credential storage, exports, installers, the setup form and rendering.
