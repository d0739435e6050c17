# A model of ND's agent engine and its desktop helpers

ND is a desktop workspace around coding agents. Its native agent (`crates/nd-agent`) is a server with one thread that
serves requests and one thread per turn; a turn loops over model calls, tool calls, approvals and host requests, and
keeps its session in a directory of snapshots. Around it the desktop application repairs structured output, owns the
system-wide shortcuts, and shows sessions, projects and chat entries. This project models these parts in Dafny and
proves what they keep over every run.

- **The turn engine** (`TurnEngine`) is a transition system. A step is one lock region, one flag read, one frame or
  one snapshot of the program; steps of the serve thread, the workers, failing writes and crashes interleave freely.
  What an observer sees (frames, requests that took effect, committed snapshots, crashes) is logged in order, and the
  results in `TurnOwnership`, `TurnSafety`, `TurnSources`, `TurnRecords`, `TurnOnce`, `TurnCancel`, `TurnStatus`,
  `TurnWire`, `TurnReissue`, `TurnDisk`, `TurnTranscripts`, `TurnAnswers`, `TurnErrorFree`, `TurnLimits` and
  `TurnBrokenOff` speak about every reachable state. `TurnScripts` shows the other side: every permitted conversation
  can be had. `TurnKeyFirst` is the same engine with one repair.
- **The session** (`Transcript`, `Compaction`, `EventLog`, `AgentSession`) and **the snapshot directory**
  (`Snapshots`): the methods work in place and are proved against functions; every directory a save passes through is
  recorded for crashes, and histories of saves are tied to the engine's disk in `TurnDisk`, for snapshot names that
  increase.
- **The repairing JSON parser** (`JsonDocument`, `JsonReader`, `JsonAccepts`, `JsonPrinter`, `JsonRepair`,
  `JsonExample`): documents keep repeated members and white space. The runtime's own reading and printing of a single
  literal or string is a parameter with the laws the runtime promises.
- **Shortcuts** (`Accelerator`, `Shortcuts`, `ShortcutRegistry`): the gate of the operating system may refuse any key
  at any time; what it was asked and what it answered is kept on record.
- **Extension manifests** (`Manifest`, `ManifestValidator`, `ManifestMeaning`, `ManifestAgain`, `ManifestReads`,
  `ManifestAccepts`): the validator in place, what an accepted package promises, what validating it again changes, and
  which manifests say which package. The host table and the formats are parameters.
- **Sessions and projects** (`SessionChain`, `SessionTree`, `ProjectScope`, `Sidebar`), **chat entries** (`ChatFold`)
  and **the throttle** (`Throttle`).

Some promises turn out false of the code as it stands, and are proved exactly:

- A cancel can miss the live turn. A worker clears `running` and releases its session
  (`crates/nd-agent/src/lib.rs:286-289`) before it removes its key (`crates/nd-agent/src/lib.rs:290-294`), so a turn
  started in between can lose its flag. `CancelReachesTheLiveTurnIff` gives the condition inside the engine,
  `CancelCanMissTheLiveTurn` the run. A client avoids it by starting a turn only when the ends of all earlier ones
  have been reported (`StartAfterTheLastEndCanBeCancelled`), and removing the key first repairs it
  (`RepairedCancelReachesTheLiveTurn`).
- Event numbers can repeat across a crash, because an event goes on the wire before its snapshot is written: exactly
  when the wire is ahead of the last committed snapshot (`CrashRepeatsNumbersIff`), and never otherwise
  (`NumbersRiseUnlessACrashLosesThem`).
- A model call may send calls without results. A turn that fails leaves a call exactly when its round has one left at
  the place where it breaks off (`BreakingOffIff`): a cancel between two calls
  (`crates/nd-agent/src/lib.rs:370-372`), an unknown tool (`crates/nd-agent/src/lib.rs:386-388`), a denial with more
  calls behind it (`crates/nd-agent/src/lib.rs:404-411`), a failed host request
  (`crates/nd-agent/src/lib.rs:412-418`), a failed frame or snapshot (`NothingIsLeftAt`), or a crash after a snapshot
  of such a place (`CrashLeavesCallsIff`). What is left stays through the turns after it unless a compaction drops it
  (`TurnPassesOnIff`, `ModelCallAnswersAllIff`), and without an error event nothing is ever left
  (`WithoutErrorsEveryCallIsAnswered`). `AModelCallCanLeaveACallUnanswered` is such a run.
- A repaired text need not mean what the input meant (`PrintingCanLoseALeaf`): a literal outside the range of numbers
  is read as infinite and printed as `null`. `RepairKeepsTheMeaning` gives the exact condition, `ARepairLosesANumber`
  the input.
- A validated manifest need not validate to itself (`RevalidationSettles`): clipping a description may leave white
  space at its end. `ManifestComesBackIff` says for which manifests, `ValidatingAgainCanChangeAPackage` gives one.

Where comments and code differ, the model follows the code. "Latest" snapshot means the greatest name, a millisecond
stamp and a random nonce, so within one millisecond, or when the clock runs back, it need not be the last one saved
(`SaveIsRecoveredIff`). The history request treats a number that is no natural as an absent `afterSeq` when it selects
but not when it reports `hasMore` (`OtherNumbersHideTheRest`). The alias table of the accelerator parser is a plain
object, so the names `constructor` and `__proto__` are accepted as modifiers that set nothing (`Accelerator.Alias`). A
contribution that lists no contexts gets all kinds, not the package's, so it is refused in a package that declares
fewer (`UnlistedContextsNarrowIff`). The parser accepts all white space that `\s` matches.

`dafny verify dfyconfig.toml` checks the whole project.

## Model

| member | source | states |
|---|---|---|
| TurnSafety.EveryHostCallIsJustified | crates/nd-agent/src/lib.rs:379-432 | for every host request in every log: its tool is one of the six that there are, and one of these holds: it is `nd_workspace_read`, `nd_workspace_list`, or `nd_git` with status, log or diff; the mode is full access; the mode is workspace-write and the call is `nd_workspace_write` or was approved by a response to an id that was asked for this very call. So nothing else is sent in read-only mode. And a committed snapshot holds the record of this very call |
| TurnSafety.ReachableIsSafe | crates/nd-agent/src/lib.rs:300-514 | the inductive invariant behind it: what each worker on its way to the host has secured, at every program point |
| TurnSources.EveryMessageHasItsSource | crates/nd-agent/src/lib.rs:412-455 | for every reachable state, in memory and on disk: each tool message is what the host answered to the request sent under an id of its own for this very call, the whole text up to 16,384 characters and otherwise these and the notice, or the denial that the mode or the user's answer to this call's approval called for; each assistant message is what the model replied, with its calls; each user message is a prompt that was sent, trimmed and not blank |
| TurnSources.AnswersAreFiledInOrder | crates/nd-agent/src/lib.rs:434-455 | the step that files a result files it to the next call of the open round, that call's own answer or denial, behind the transcript as it is |
| TurnSources.RequestsHaveOwnIds | crates/nd-agent/src/lib.rs:487-506 | no id stands for two host requests, no execution of a call has two, and none is answered twice |
| TurnSources.EachCallHasOneResult | crates/nd-agent/src/lib.rs:419-455 | so one execution of a call has one result, whatever is asked about it |
| TurnRecords.TheLogTellsTheTranscript | crates/nd-agent/src/lib.rs:434-455 | in memory and on disk, in every reachable state: as long as a session has dropped no event and was not compacted, its event log tells exactly the prompts, the replies with a text and the results of its transcript, in their order |
| TurnRecords.NothingGoesOutUnsaved | crates/nd-agent/src/lib.rs:343-412 | whenever a turn calls the model, takes up a call, asks the user or sends a call to the host, its session is on disk exactly as it is in memory |
| TurnScripts.EveryScriptIsPlayed | crates/nd-agent/src/lib.rs:300-377 | the engine does what it may: from every reachable state in which a session rests, every prompt and every script of replies, calls the mode permits and host answers, of up to 23 rounds of calls, can be played, and leaves exactly that transcript in memory and on disk, each answer behind its call |
| TurnOnce.EachCallIsSentOnce | crates/nd-agent/src/lib.rs:369-432 | no execution of a call is sent to the host twice, whatever crashes and restarts lie between |
| TurnOnce.EachApprovalServesOneCall | crates/nd-agent/src/lib.rs:457-485 | one approval id stands behind at most one host request |
| TurnOwnership.OneOwnerPerRunningSession | crates/nd-agent/src/lib.rs:217-298 | a session runs exactly when it has one live worker, is being started, or was left behind by a failed start; never two live workers |
| TurnOwnership.ReachableIsOwned | crates/nd-agent/src/lib.rs:217-298 | the ownership invariant holds in every reachable state |
| TurnOwnership.Undisturbed | crates/nd-agent/src/lib.rs:269-296 | while a worker is live no step of another thread touches it or its session |
| TurnWire.EventsReachTheWireInOrder | crates/nd-agent/src/lib.rs:325-339 | between crashes two successive events of a session on the wire carry successive numbers, although chunks are emitted outside the session lock; a failed write only loses its own frame |
| TurnWire.OwnChunkIsTheOnlyOne | crates/nd-agent/src/lib.rs:325-339 | a live worker is the only one that can owe a chunk frame of its session |
| TurnWire.StepAdvances | crates/nd-agent/src/lib.rs:516-519 | every step but a crash emits of each session nothing or exactly its next number, chunks counting when they are emitted |
| TurnReissue.CrashRepeatsNumbersIff | crates/nd-agent/src/session.rs:197-225 | for a crash in any reachable state: some continuation, further crashes included, gives a number that is already on the wire to another event exactly when an event was sent whose number is above the last committed snapshot's |
| TurnReissue.NumbersRiseUnlessACrashLosesThem | crates/nd-agent/src/session.rs:79-89 | over a whole log with any number of crashes, a later event has a greater number than an event sent before it, unless a crash in between found the wire ahead of the disk |
| TurnReissue.CrashReissuesNumbers | crates/nd-agent/src/session.rs:214-217 | the smallest run in which it happens: a prompt is sent, the process dies before the snapshot, the next prompt gets the number |
| TurnDisk.DiskIsLastCommitted | crates/nd-agent/src/session.rs:265-284 | in every reachable state the disk holds for each session the snapshot committed last |
| TurnDisk.ReopeningFindsTheDisk | crates/nd-agent/src/session.rs:197-225 | with increasing snapshot names, reopening a session's directory after a crash in any reachable state, whatever saves failed or were cut off in it, finds exactly what the engine's disk holds |
| TurnDisk.SomeHistoryDescribes | crates/nd-agent/src/session.rs:265-284 | every log has such a history of its session's directory |
| TurnCancel.AtMostOneActionAfterACancel | crates/nd-agent/src/lib.rs:308-374 | after a cancel has hit a turn at most one more model call, approval request or host call of it occurs |
| TurnCancel.CancelReachesTheLiveTurnIff | crates/nd-agent/src/lib.rs:262-296 | from the registration of a turn's flag, a cancel reaches that turn in every continuation exactly when no finished turn of the session still has its key removal ahead |
| TurnStatus.StartAfterTheLastEndCanBeCancelled | crates/nd-agent/src/lib.rs:262-296 | the rule for clients, checked on the frames: a turn started when as many ends as beginnings of the session's turns have been reported since the process started can be cancelled as long as it is live |
| TurnKeyFirst.RepairedCancelReachesTheLiveTurn | crates/nd-agent/src/lib.rs:286-294 | with the key removed before `running` is cleared, a cancel reaches the live turn in every reachable state |
| TurnCancel.CancelCanMissTheLiveTurn | crates/nd-agent/src/lib.rs:286-294 | as written, a state with a live turn that no cancel can reach is reachable |
| TurnCancel.StaleStartIsReachable | crates/nd-agent/src/lib.rs:286-294 | the run that leads there: cancel a turn and start the next before the first removes its key |
| TurnTranscripts.EveryTranscriptIsSound | crates/nd-agent/src/lib.rs:300-455 | in memory and on disk, in every reachable state, every tool result follows its own call and the event log is the tail of its numbering |
| TurnTranscripts.FinishedTurnAnsweredEveryCall | crates/nd-agent/src/lib.rs:366-377 | a turn that ends without an error has answered every call it made |
| TurnTranscripts.LiveTurnEnds | crates/nd-agent/src/lib.rs:300-455 | the transcript of a live turn ends as its worker's place in the program says: settled, or in a round with so many calls answered |
| TurnAnswers.BreakingOffIff | crates/nd-agent/src/lib.rs:300-455 | a step by which a turn fails, at whatever place of its program, leaves a call without its result exactly when the round it is in has one left there |
| TurnAnswers.NothingIsLeftAt | crates/nd-agent/src/lib.rs:366-455 | the places where none is left: before the reply is filed, at a reply without calls, at the last call once its result or denial is filed; so a cancel between two calls, an unknown tool, a failed frame or snapshot, a host failure and a denial with more calls behind it leave some |
| TurnAnswers.TurnLeavesCallsIff | crates/nd-agent/src/lib.rs:269-298 | what a turn leaves stays so in memory and in every snapshot committed of it until the session's next turn begins |
| TurnAnswers.ModelCallAnswersAllIff | crates/nd-agent/src/lib.rs:308-374 | every model call of a turn answers every call if the transcript did when the turn began; without compaction, which may drop what was unanswered, only then |
| TurnAnswers.TurnPassesOnIff | crates/nd-agent/src/lib.rs:217-298 | over a whole turn: its end answers every call exactly when its beginning did and the place where it went over to its end had none left; with compaction if so, and never if one was left |
| TurnAnswers.CrashLeavesCallsIff | crates/nd-agent/src/session.rs:197-225 | a crash at any moment: the reopened transcript's last turn holds a call without its result exactly when the place that committed its last snapshot had one left |
| TurnAnswers.StartSnapshotIsSettled | crates/nd-agent/src/lib.rs:224-260 | the snapshot that starts a turn has no call left in its last turn |
| TurnErrorFree.WithoutErrorsEveryCallIsAnswered | crates/nd-agent/src/lib.rs:269-298 | from any moment at which a session is not running and answers every call: as long as the log holds no error event of it since, and no crash that found it running in its last snapshot, its model calls answer every call |
| TurnErrorFree.ErrorFreeSessionsAnswerEveryCall | crates/nd-agent/src/lib.rs:269-298 | in particular a session that never recorded an error answers every call in every model call |
| TurnLimits.TurnsAreBounded | crates/nd-agent/src/lib.rs:308-377 | no turn calls the model more than 24 times, in any reachable state |
| TurnLimits.TurnsBeginOnDisk | crates/nd-agent/src/lib.rs:224-269 | a turn's thread is spawned only when its session, running and with the prompt as its last message, is on disk as it is in memory |
| TurnLimits.HostCallsGoByTheirStart | crates/nd-agent/src/lib.rs:217-269 | every host call of a turn carries the session and the permission mode of the request that started it |
| TurnBrokenOff.AModelCallCanLeaveACallUnanswered | crates/nd-agent/src/lib.rs:343-367 | a reachable model call that sends a call without its result: the snapshot of the reply before it failed |
| TurnTranscripts.CrashClosesInterruptedTurns | crates/nd-agent/src/session.rs:197-225 | after a crash nothing runs, every session is the one last committed, and one that was running there ends with an error event of its own number |
| Transcript.PushKeepsWellFormed | crates/nd-agent/src/lib.rs:354-359 | pushing a message that is no tool result keeps every result behind its call |
| Transcript.AnswerKeepsWellFormed | crates/nd-agent/src/lib.rs:434-455 | pushing the next answer of an open round keeps every result behind its call and advances the round |
| Transcript.CutKeepsWellFormed | crates/nd-agent/src/session.rs:149-155 | cutting at a user message behind a plain preamble keeps every result behind its call |
| Transcript.CutKeepsSettled | crates/nd-agent/src/session.rs:149-155 | such a cut leaves no call of the last turn unanswered if none was |
| Transcript.AnswersAllIff | crates/nd-agent/src/lib.rs:366-377 | a transcript whose last turn is settled answers every call exactly when every earlier turn was settled at its end |
| Transcript.TotalCharsCountsEverything | crates/nd-agent/src/session.rs:168-180 | what counts against the limit: every character of all contents and arguments and every UTF-8 byte of the tools' names |
| Compaction.SuffixStartFound | crates/nd-agent/src/session.rs:112-122 | the backward scan finds the last user turn that fills the budget from there on, otherwise the first user turn |
| Compaction.SummaryIsBounded | crates/nd-agent/src/session.rs:127-147 | the recovery summary has at most 8,012 characters |
| Compaction.SummaryIsTheEntries | crates/nd-agent/src/session.rs:127-147 | the summary is the header and, message by message, one line for each dropped user, assistant or system message whose excerpt is not blank: its role and the first 1,000 characters or as many as there is room for; it stops at the first such message for which less than 64 characters are left, and no tool message appears |
| Compaction.SummaryIsUnique | crates/nd-agent/src/session.rs:127-147 | and nothing else is such a summary |
| Compaction.CompactionIsExact | crates/nd-agent/src/session.rs:94-157 | every compaction of any transcript: it is over 96,000 characters, and becomes its system message if it starts with one, the summary of what is dropped, and the rest from the last user turn that fills the budget, or from the first |
| Compaction.CompactionKeepsStructure | crates/nd-agent/src/session.rs:94-157 | a compaction keeps the first message and an exact suffix from a user message with one summary between them, and stays well formed, grounded and settled |
| Compaction.CompactionBoundsTheContext | crates/nd-agent/src/session.rs:104-147 | with a policy that leaves room, the result is at most the context limit, the summary's 12 characters and the oldest kept turn |
| Compaction.CompactionDeclinesExactlyWhen | crates/nd-agent/src/session.rs:123-125 | it declines exactly when it is off, the transcript has at most 96,000 characters, or the conversation starts with a user turn and no later turn fills the budget |
| Compaction.CompactingAgainKeepsTheSuffix | crates/nd-agent/src/session.rs:94-157 | compacting again with nothing appended keeps the same suffix |
| AgentSession.Session.CompactMessages | crates/nd-agent/src/session.rs:94-157 | the method in place: its result and the new messages are those of the specification the lemmas speak about |
| AgentSession.Session.FindSuffixStart | crates/nd-agent/src/session.rs:112-122 | the loop with its running total finds the specified start |
| AgentSession.Session.Summarize | crates/nd-agent/src/session.rs:127-147 | the loop over the dropped messages returns the summary that the lines make up, which is unique |
| AgentSession.Session.Record | crates/nd-agent/src/session.rs:79-89 | numbers, appends and drops in place as specified, and returns the event |
| EventLog.RecordsKeepTheTail | crates/nd-agent/src/session.rs:79-89 | after any number of records the log holds exactly the last min(sequence, 1000) consecutive numbers |
| EventLog.RecordsAreKept | crates/nd-agent/src/session.rs:79-89 | what is kept of them is what was recorded: the newest 1,000 events, each with its number and data, in their order |
| EventLog.HasMoreIsExact | crates/nd-agent/src/lib.rs:152-182 | with a natural `afterSeq`, `hasMore` says exactly whether a later retained event is missing from the page |
| EventLog.PageAdvances | crates/nd-agent/src/lib.rs:152-182 | a page with more to come moves `afterSeq` forward |
| EventLog.PagesAreFull | crates/nd-agent/src/lib.rs:152-182 | a page holds min(limit, what there is) events, the limit being at least 1, at most 200 and 200 if none is given: the first ones after `afterSeq`, and without a natural one the newest; without `afterSeq`, `hasMore` says whether an older one is left out |
| EventLog.LaterIsExact | crates/nd-agent/src/lib.rs:156-162 | the later events are exactly those with a greater number |
| EventLog.PagingReturnsEverything | crates/nd-agent/src/lib.rs:152-182 | paging until `hasMore` is false returns every later retained event once, in order |
| Snapshots.PaddingKeepsOrder | crates/nd-agent/src/session.rs:271-272 | zero-padded numbers sort as text as they do as numbers |
| Snapshots.SnapshotDir.Save | crates/nd-agent/src/session.rs:265-284 | every intermediate directory of a save, torn writes, faults and stuck removals included: the old snapshots up to the rename, from then on the new one and nothing but outdated ones removed |
| Snapshots.SnapshotDir.Prune | crates/nd-agent/src/session.rs:278-282 | removes only snapshots with two newer ones, at every step, and all of them unless one is stuck |
| Snapshots.SnapshotDir.LoadLatest | crates/nd-agent/src/session.rs:304-316 | returns the one newest readable snapshot, and nothing exactly when none is readable |
| Snapshots.SnapshotDir.SortedNames | crates/nd-agent/src/session.rs:295-306 | lists exactly the snapshots, in order |
| Snapshots.SaveIsRecoveredIff | crates/nd-agent/src/session.rs:265-316 | a completed save is what reopening finds exactly when its name sorts behind every other snapshot |
| Snapshots.PowerLossFallsBack | crates/nd-agent/src/session.rs:189-190 | when the newest snapshot turns out torn, reopening finds the one before it |
| Snapshots.IncreasingNamesStayNewest | crates/nd-agent/src/session.rs:271-272 | with increasing names every directory a save passes through, whatever became of it, stays behind the next name |
| Snapshots.LastRenamedIsRecovered | crates/nd-agent/src/session.rs:265-316 | with increasing names, over every history of saves with any fault, stuck removal, crash at any step and restart, reopening finds exactly the session renamed last, and nothing before the first rename |
| JsonRepair.MergeRepeatedArrayKeys | src/shared/structured-output.ts:23-90 | nothing for a text that is too long or cannot be read, the text itself when no array was joined, otherwise a printing of the value read |
| JsonRepair.RepairSucceedsIff | src/shared/structured-output.ts:23-90 | a repair succeeds exactly on documents of at most 2,000,000 characters nested at most 128 deep |
| JsonRepair.RepairKeepsTheMeaning | src/shared/structured-output.ts:23-90 | the result counts the repeated arrays and is a document without any, whose ordinary last-wins value is the merged meaning of the input; exactly when every leaf survives printing |
| JsonRepair.PrintingCanLoseALeaf | src/shared/structured-output.ts:86-89 | a literal that prints differently, such as 1e400, is lost as soon as anything is merged: the input on which the text means something else |
| JsonExample.SomeRepairLosesTheLeaf | src/shared/structured-output.ts:86-89 | under any lawful lexicon the repair that loses such a leaf can return |
| JsonExample.NumbersAreLawful | src/shared/structured-output.ts:81-89 | the laws can be kept together with a literal that is lost when printed |
| JsonExample.ARepairLosesANumber | src/shared/structured-output.ts:81-89 | the instance: repairing `{"k":[],"k":[1e400]}` |
| JsonRepair.RepairingAgainChangesNothing | src/shared/structured-output.ts:23-90 | a second pass returns the same text with nothing merged, or nothing when the printing grew beyond the size limit |
| JsonRepair.OneMeaningPerText | src/shared/structured-output.ts:23-90 | a text has one meaning however it is cut into tokens |
| JsonRepair.NoMergesIsOrdinary | src/shared/structured-output.ts:89-89 | where nothing was merged the merged meaning is the ordinary one |
| JsonRepair.Parser.Value | src/shared/structured-output.ts:44-85 | the recursive descent over the shared cursor reads what the grammar function reads, adds its merges to the shared count and always moves forward |
| JsonRepair.Parser.Items | src/shared/structured-output.ts:48-59 | the loop over array elements reads the whole array |
| JsonRepair.Parser.Members | src/shared/structured-output.ts:60-80 | the loop over members reads the whole object, merging as it goes |
| JsonRepair.Parser.Write | src/shared/structured-output.ts:71-75 | two arrays under a merge key are joined and counted, anything else replaces |
| JsonRepair.Parser.String | src/shared/structured-output.ts:34-43 | a quoted string ends at its first unescaped quote and is decoded by the runtime |
| JsonDocument.CloseQuoteIsTheFirstBareOne | src/shared/structured-output.ts:34-43 | the closing quote is the first one behind an even number of backslashes |
| JsonRepair.Parser.SkipQuoted | src/shared/structured-output.ts:37-41 | steps over whatever follows a backslash |
| JsonRepair.Parser.Literal | src/shared/structured-output.ts:81-84 | an unquoted literal runs to white space, a comma or a closing bracket |
| JsonRepair.Parser.Expect | src/shared/structured-output.ts:29-33 | skips white space and takes exactly this character |
| JsonReader.ReadsValue | src/shared/structured-output.ts:44-85 | every document is read to its end, giving its merged meaning and its number of continuations, whatever follows |
| JsonReader.ReadsMembers | src/shared/structured-output.ts:66-79 | members one after the other give their keys and values in order |
| JsonReader.ReadsItems | src/shared/structured-output.ts:53-58 | elements one after the other give their values in order |
| JsonAccepts.ValueIsDocument | src/shared/structured-output.ts:44-85 | whatever is read is white space and then a document of bounded nesting |
| JsonDocument.CombinedByKey | src/shared/structured-output.ts:66-79 | key by key: a plain key holds the last value written; a merge key whose last value is an array holds all elements of the arrays written since the last value that was not one |
| JsonDocument.JoinsExactlyAtContinuations | src/shared/structured-output.ts:71-75 | the parser joins at a member exactly when the closest earlier member with its merge key has an array too |
| JsonPrinter.PrintedReadsBack | src/shared/structured-output.ts:89-89 | a printing is a document without merges that means what was printed, leaves printed once |
| JsonPrinter.PrintingIsLosslessIff | src/shared/structured-output.ts:89-89 | printing loses nothing exactly when every leaf survives it |
| JsonPrinter.Stringify | src/shared/structured-output.ts:89-89 | prints every key of every object once, in any order |
| Accelerator.ParseAccelerator | src/shared/shortcuts.ts:197-217 | the loop that gives up at the first bad part computes the specified parse |
| Accelerator.ParsesExactly | src/shared/shortcuts.ts:197-217 | an accelerator parses to a chord exactly when its parts are known modifiers, in any order and number, and that one key |
| Accelerator.AliasesByName | src/shared/shortcuts.ts:82-95 | a part sets a modifier exactly if it is, in whatever case, one of the eleven names given for it: `ctrl` and `control` for Control, `option` and `alt` for Alt, and so on; the two inherited names set nothing |
| Accelerator.KeyTokensByName | src/shared/shortcuts.ts:97-149 | the keys ND knows are the letters, the digits, F1 to F24 and those named by words |
| Accelerator.KeysByName | src/shared/shortcuts.ts:97-149 | a part stands for a key exactly if it is the key's own name or its physical code, such as `KeyA`, `Digit0` or `ArrowUp` |
| Accelerator.SerializeIs | src/shared/shortcuts.ts:74-80 | a chord is printed as its modifiers in one fixed order, then its key, with plus signs between them |
| Accelerator.ParseSerialize | src/shared/shortcuts.ts:190-217 | parsing what was printed gives back the chord |
| Accelerator.SerializeIsInjective | src/shared/shortcuts.ts:190-194 | different chords print differently |
| Accelerator.CanonIsStable | src/shared/shortcuts.ts:190-217 | whatever parses has one canonical spelling that means the same chord and is left alone |
| Accelerator.SameChordIff | src/shared/shortcuts.ts:190-217 | two accelerators ask for the same chord exactly when their canonical spellings agree |
| Accelerator.TokensAreTheCodesValues | src/shared/shortcuts.ts:139-149 | the valid key tokens are exactly what the physical codes stand for |
| Accelerator.KeyTokensAreWords | src/shared/shortcuts.ts:83-149 | no key token is a modifier alias or holds a plus sign or white space, and each stands for itself |
| Accelerator.SplitJoin | src/shared/shortcuts.ts:193-202 | splitting at plus signs undoes joining |
| Accelerator.JoinSplit | src/shared/shortcuts.ts:193-202 | and joining undoes splitting: the parts are what stands between the plus signs |
| Shortcuts.ConflictFreeIff | src/shared/shortcuts.ts:351-375 | among canonical bindings the string comparisons decide about chords: a chord is free exactly when its key is known, it is none of the combinations the system or ND keeps, spelled out for each platform, it has two modifiers or a key that needs none, and no other action has it |
| Shortcuts.ConflictIsTheFirst | src/shared/shortcuts.ts:351-375 | and the reason given is the first that applies; a duplicate names an action that has the chord |
| Shortcuts.ReservedByChord | src/shared/shortcuts.ts:311-326 | comparing spellings finds a reserved chord exactly when the platform keeps it, by the list of chords spelled out |
| Shortcuts.DefaultsAreCanonical | src/shared/shortcuts.ts:28-33 | the shipped bindings are canonical |
| Shortcuts.DefaultsDiffer | src/shared/shortcuts.ts:28-33 | and ask for different chords |
| Shortcuts.DefaultsMayBeClaimed | src/shared/shortcuts.ts:351-375 | and on every system each of them may be claimed while the others have theirs |
| ShortcutRegistry.Registry.Sync | src/main/shortcut-registry.ts:66-73 | asks the system once for each key that is not live yet and for no other; each is live if it was granted, and otherwise waits with the reason the system gave; what was live stays |
| ShortcutRegistry.Registry.Rebind | src/main/shortcut-registry.ts:98-129 | a text that is no key and a chord that conflicts are answered without asking the system. Otherwise the result is success exactly when the key is already this action's or the system, asked for exactly that key, granted it, and a refusal reports its own reason; the previous key, if there was one, is then asked for again before returning and is live exactly if granted. Only success stores the key; other actions are left alone and bindings that differ keep differing |
| ShortcutRegistry.Registry.Swap | src/main/shortcut-registry.ts:113-126 | releases, asks for the new key, and on a refusal asks for the previous one again, around a system that may refuse anything; its questions and answers are on record |
| ShortcutRegistry.Registry.Retry | src/main/shortcut-registry.ts:144-163 | asks once for each key that waits and for no other; those granted are live, the rest wait on with the reason given, and a timer is armed exactly when something still waits |
| ShortcutRegistry.Registry.Bind | src/main/shortcut-registry.ts:166-177 | asks the system once for exactly this key and records its answer; on refusal no key is held |
| ShortcutRegistry.Registry.Acquire | src/main/shortcut-registry.ts:179-185 | asks once for this key; it is live, or waits with a timer armed and the reason given |
| ShortcutRegistry.Registry.Release | src/main/shortcut-registry.ts:187-192 | gives back exactly this action's key |
| ShortcutRegistry.Registry.Dispose | src/main/shortcut-registry.ts:131-138 | nothing is held, waiting or armed |
| ShortcutRegistry.BindingStore.SetGlobalShortcut | src/main/theme.ts:172-179 | stores the canonical spelling, and nothing when the text is no accelerator |
| SessionTree.BuildSessionTree | src/shared/session-tree.ts:18-38 | the roots are the nodes of the sessions without a parent to go under, each node's children those attached to it, in the order given, also when ids repeat |
| SessionTree.HasParentCycle | src/shared/session-tree.ts:40-54 | terminates and is true exactly when the walk up comes back to the child or never ends |
| SessionTree.AttachedIff | src/shared/session-tree.ts:25-35 | with unique ids a session is attached exactly when it is a subagent, the parent it names is listed, and the chain of subagents and parents above it can be written out to its end; and then it hangs from that parent |
| SessionChain.TerminatesIff | src/shared/session-tree.ts:40-54 | the walk up ends exactly when the chain above can be written out |
| SessionTree.EverySessionIsPlacedOnce | src/shared/session-tree.ts:25-35 | once as a root or once under its parent, and nowhere else |
| SessionTree.TheForestKeepsTheOrder | src/shared/session-tree.ts:25-35 | roots and the children of every session stand in the order in which the sessions are given |
| SessionTree.EverySessionHangsFromARoot | src/shared/session-tree.ts:15-17 | going up the forest's links from any session ends at a root, so no session is hidden |
| SessionTree.LinksAreAcyclic | src/shared/session-tree.ts:15-17 | the forest's links never lead back |
| ProjectScope.ResolveSessionProjectIds | src/shared/session-project-scope.ts:40-72 | every session given is resolved to the first direct attribution on its chain of parents |
| ProjectScope.ProjectByRule | src/shared/session-project-scope.ts:40-72 | a session's project is its own attribution; without one, that of the parent it is a subagent of; on top without one it has none |
| ProjectScope.Resolver.ProjectFor | src/shared/session-project-scope.ts:49-68 | the memoised recursion terminates, and whatever it remembers is right, also while walking a cycle |
| ProjectScope.LoopHasNoProject | src/shared/session-project-scope.ts:56-56 | a walk that returns to its own trail has found that there is no attribution |
| ProjectScope.OrderDoesNotMatter | src/shared/session-project-scope.ts:40-72 | the order in which sessions are listed does not matter |
| ProjectScope.ChildSharesParentsProject | src/shared/session-project-scope.ts:32-39 | a subagent without an attribution of its own is in its parent's project |
| ProjectScope.FilterSessionsInProjectScope | src/shared/session-project-scope.ts:74-88 | keeps exactly the sessions in scope, in their order |
| ProjectScope.EachProjectShowsItsOwn | src/shared/session-project-scope.ts:19-30 | Personal shows every session, as often as it is listed, that is Personal's or nobody's, any other project exactly its own |
| ProjectScope.ScopeKeepsTheOrder | src/shared/session-project-scope.ts:74-88 | and in the order in which they are listed |
| ProjectScope.ChildIsShownWithParent | src/shared/session-project-scope.ts:74-88 | such a subagent is shown exactly where its parent is |
| Sidebar.NoChatIsLost | src/shared/session-date-group.ts:121-166 | with projects that have different, non-empty ids, the sections hold every chat exactly once, and each section's groups are its chats, newest first |
| Sidebar.EveryChatStandsWithItsProject | src/shared/session-date-group.ts:121-166 | each chat stands in exactly one section, that of its project, or Personal's if it has none or one that is gone |
| Sidebar.GroupSessionsByProject | src/shared/session-date-group.ts:132-166 | one section per project with exactly the chats it owns |
| Sidebar.GroupsAreTheEntries | src/shared/session-date-group.ts:96-111 | the date groups laid end to end are all the entries, newest first |
| Sidebar.GroupsGoByDays | src/shared/session-date-group.ts:44-111 | under each header stand exactly the chats of that age, by days counted from the start of today, headers in their order and none without a chat |
| Sidebar.SortIsStable | src/shared/session-date-group.ts:96-111 | chats of the same time keep their order |
| Sidebar.BucketEntriesByDate | src/shared/session-date-group.ts:96-111 | filling the buckets in one pass gives the non-empty groups in order |
| ChatFold.FoldEvent | src/shared/chat-events.ts:44-49 | folding one event on copies: nothing that existed changes, and every entry the event does not touch is the same object |
| ChatFold.FoldHistory | src/shared/chat-events.ts:29-37 | the in-place fold gives the left fold of the single events, on entries of its own |
| ChatFold.FoldEventInto | src/shared/chat-events.ts:51-205 | both modes compute the same entries; at most one entry is replaced or one appended |
| ChatFold.ChunksAreJoined | src/shared/chat-events.ts:91-102 | chunks folded onto entries that do not end in a streaming reply leave these and one streaming reply, whose text is the chunks in their order; empty ones leave nothing |
| ChatFold.StreamedReplyIsSettled | src/shared/chat-events.ts:125-131 | the final message then takes that reply's place, settled, with the cleaned text |
| ChatFold.ResultsGoToTheirCalls | src/shared/chat-events.ts:173-192 | a result goes to the oldest call that waits for it and keeps its id, name and arguments; the status is failed exactly when there is an error, and shown is `Error: ` with it, or else the first characters of the text; with none waiting it stands alone |
| ChatFold.CallAndResultAreOneEntry | src/shared/chat-events.ts:167-192 | a call and its result, one after the other, make one entry |
| ChatFold.ReasoningIsJoined | src/shared/chat-events.ts:155-166 | reasoning is joined line by line in one entry, up to the piece that makes it 4,000 characters long |
| ChatFold.LongReasoningStartsAnew | src/shared/chat-events.ts:155-166 | and from there on in a new one |
| ChatFold.PromptsAreShownOnce | src/shared/chat-events.ts:71-90 | a prompt appends its visible text, images and mention, unless there is nothing to show or it repeats the last entry or, with a legacy prefix, any earlier prompt |
| ChatFold.ContextIsNoPrompt | src/shared/chat-events.ts:59-70 | a message from any other source appends it as context under that source, unless it is empty or repeats the last entry |
| ChatFold.LastTodoStays | src/shared/chat-events.ts:193-199 | of lists written one after the other the last one stays |
| ChatFold.CallsAreSettledOneByOne | src/shared/chat-events.ts:167-192 | a call adds one waiting entry, a result settles exactly the oldest that waits for it, and no other event starts or settles one |
| ChatFold.DecideAssistantMessage | src/shared/chat-events.ts:103-154 | the three scans decide: a message replaces the assistant entry with the named number of assistant entries behind it, or settles the reply streaming at the end, or the first settled entry that matches decides, or it is new |
| ChatFold.AssistantFromEndCounts | src/shared/chat-events.ts:111-122 | the backward scan finds the assistant entry with exactly so many more behind it, and nothing when there are no more than that |
| ChatFold.UpgradeTakesTheFirstMatch | src/shared/chat-events.ts:134-152 | the forward scan is decided by the first settled entry that repeats the text or is its unfinished form |
| ManifestValidator.Validate | src/shared/extension-package.ts:334-378 | accepts exactly the acceptable manifests, returns what they say, and otherwise at least one problem |
| ManifestValidator.Validator.ReadManifest | src/shared/extension-package.ts:334-378 | one walk over the manifest notes a problem exactly when something in it is not in order |
| ManifestValidator.Validator.ReadLists | src/shared/extension-package.ts:525-615 | the five lists share the ids seen: no problem exactly when every item is in order and all ids, those of view actions included, differ |
| ManifestValidator.Validator.ReadItems | src/shared/extension-package.ts:771-789 | the loop over one list takes the ids of its items in order |
| ManifestValidator.Validator.ReadId | src/shared/extension-package.ts:704-716 | a new id of the right form is taken, anything else is a problem |
| ManifestValidator.Validator.ReadContexts | src/shared/extension-package.ts:425-445 | the known kinds, each once, in order |
| ManifestValidator.Validator.ReadSettings | src/shared/extension-package.ts:464-507 | no problem exactly when every setting is in order and all keys differ |
| ManifestValidator.Validator.ReadExecutable | src/shared/extension-package.ts:656-702 | no problem exactly when the runtime is in order, or there is none and no tools need it |
| Manifest.UnlistedContextsNarrowIff | src/shared/extension-package.ts:425-445 | a contribution that lists no contexts is in order exactly in a package that declares all three kinds, or whose own list of contexts gave nothing |
| ManifestMeaning.AcceptedIsSound | src/shared/extension-package.ts:509-654 | whatever is accepted has different ids across all kinds and view actions, contexts inside the package's and every named host's, a view for every command that opens one, and a runtime for its tools |
| ManifestAccepts.AcceptedIff | src/shared/extension-package.ts:334-378 | for every manifest and package: the manifest is accepted as this package exactly if it says so, field by field, and the package is complete, with every permission it declares known. So it says at most one, and nothing said in order is refused |
| ManifestAccepts.PackageIdsDifferIff | src/shared/extension-package.ts:704-716 | the ids are new exactly if no two contributions or view actions of whatever kind have the same |
| ManifestAccepts.HostsAre | src/shared/extension-package.ts:380-390 | the hosts that count are those of commands, of views and of their actions |
| ManifestReads.ContextsIff | src/shared/extension-package.ts:425-445 | the contexts read are the kinds listed, each once, in the order of their first appearance, and all three without a list |
| ManifestReads.PermissionsIff | src/shared/extension-package.ts:447-462 | the permissions read are those listed, each once and in that order, and every one is known |
| ManifestReads.KeywordsIff | src/shared/extension-package.ts:554-556 | the keywords read are the first 32 texts that are not blank, each trimmed and at most 64 characters long |
| ManifestMeaning.PermissionIssues | src/shared/extension-package.ts:380-397 | exactly the permissions that some named host or the workflows need and that are not declared; none exactly when all are |
| ManifestAgain.RevalidationSettles | src/shared/extension-package.ts:334-378 | an accepted package is accepted again; it comes back unchanged exactly when no clipped text ends in white space, and from the second time on always |
| ManifestAgain.ManifestComesBackIff | src/shared/extension-package.ts:334-378 | for every accepted manifest: its package comes back unchanged exactly when no description, no keyword among those kept and no body key is longer than its limit with white space as the last character within it |
| ManifestAgain.OneSkillComesBackIff | src/shared/extension-package.ts:502-502 | for every one-skill package the rules admit: it comes back unchanged unless its description is longer than the limit and has white space as the last character within it |
| ManifestAgain.ValidatingAgainCanChangeAPackage | src/shared/extension-package.ts:334-378 | under any rules that admit such a package some accepted package comes back changed |
| ManifestMeaning.ClipAgain | src/shared/extension-package.ts:502-502 | reading a clipped text again takes off white space at its end, once and for all |
| Throttle.LatestThrottle.Perform | src/main/latest-value-throttle.ts:6-35 | over any run, with pushes and cancels from inside the listener: deliveries are an order-preserving subsequence of the pushes, an interval apart, and the latest push is delivered last, pending with an armed timer, or cancelled |
| Throttle.LatestThrottle.PerformOne | src/main/latest-value-throttle.ts:11-34 | a push after an idle interval, or the first, is delivered at once; any other waits, with the timer set to an interval after the last delivery; when the timer fires on time the latest push is delivered, before that nothing is; what is cancelled is not delivered |
| Throttle.LatestThrottle.Flush | src/main/latest-value-throttle.ts:11-18 | delivers the latest push and settles before the listener runs |
| Throttle.DeliveriesTakeTheirTime | src/main/latest-value-throttle.ts:1-5 | so many deliveries take at least so many intervals |
| Throttle.AtMostOnePerInterval | src/main/latest-value-throttle.ts:1-5 | a stretch of time holds at most one delivery more than the whole intervals in it |

## Left out

- The provider call behind `complete` with its HTTP retries and stream parsing: its reply and its chunks are
  arbitrary.
- Fresh ids (UUIDs) are numbers never drawn before; a nonce in a snapshot name is a number compared as such.
- Wall-clock values in events and summaries, titles, routes, the model catalog, `session.list` and `session.resume`.
- The checks of a start that read only its request (route, permission mode, working directory) and blank working
  directories.
- A write that returns an error although its frame arrived, as after a failed flush: in the model a failed write loses
  its frame. A host request that did arrive looks like one that was sent and then timed out.
- How a host result that is no text is printed; the model has it printed already.
- Poisoned locks, panicking threads and malformed lines on the wire; a reader that ends.
- Machine widths: sequence numbers and character counts are unbounded, so `saturating_add` never saturates.
- The order in which a snapshot directory is listed, and files whose names do not end in `.json`.
- AgentSession.Session.Record: does not model the event's type name and time stamp.
- JsonRepair.MergeRepeatedArrayKeys: does not model which of the errors is thrown, nor lone surrogates; lengths count
  characters, not UTF-16 units.
- JsonPrinter.Stringify: does not model the order of keys, which the runtime fixes; every order is covered.
- The other half of structured output: reasoning labels, tagged blocks and assistant segments.
- Accelerator.ParseAccelerator: does not model lower-casing beyond ASCII letters, because no other letter makes an
  alias.
- Display labels of chords, recording a chord from keyboard events, the wording of conflict messages, and the report of
  bindings for the settings page.
- ShortcutRegistry.Registry.Rebind: does not model requests for unknown actions or values that are no text, which fail
  before anything is read.
- Reading stored shortcuts from the settings file and writing them back to disk.
- ShortcutRegistry.Registry.Retry: does not model the order in which waiting keys are tried; every order is covered.
- ProjectScope.ResolveSessionProjectIds: does not model session ids that name an inherited property of the attribution
  record, such as `constructor`.
- Sidebar.GroupSessionsByProject: does not model project names, the active flag and time stamps that are no number.
- The runtime's stable sort is a function of the model (`Sidebar.NewestFirst`); the local calendar is a parameter that
  is ordered in time; a day up to half a day longer or shorter counts as one (`Sidebar.RoundingAbsorbsClockChanges`).
- ChatFold.FoldEventInto: does not model reading the payload (message text, image blocks, legacy prefixes as regular
  expressions) nor the ids of entries; the text clean-up is a parameter.
- Throttle.LatestThrottle.Perform: does not model a listener that throws.
- ManifestValidator.Validate: does not model the paths and wording of issues, nor members the validator ignores;
  numbers are whole.
- The tables of host methods and permissions and the patterns of ids, versions and paths, which are parameters of the
  validator.
- Electron windows, IPC, preload bridges, capture, credentials, providers and wallpapers.
