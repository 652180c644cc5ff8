# Proofs about the mobile client

A model, in Dafny 4.11, of the state machines and readers of the mobile client under
`mobile/src`, with proofs of what their comments promise. `dafny verify dfyconfig.toml`
checks all of it.

- **Queued prompts** (`ChatQueue`, `ChatView`, `ChatHistory`, `ChatProtocol`,
  `ChatGuarantees`, `ChatTargets`, `ChatLateWrites`). One prompt per session is queued,
  stored with a `sending` mark and sent over a channel that may lose answers, while
  controllers come and go and the app may die at any step. `ChatView` has the controller as a class whose methods are proved
  against handler functions; `ChatProtocol` runs those handlers over every sequence of
  events, with a history of what became of each accepted draft; the last three
  have the theorems over all runs.
- **Transcript and refresh** (`ChatTranscript`), **approval gate** (`ApprovalGate`),
  **push sync** (`PushSync`), **launch** (`Launch`). Each is a class proved against step
  functions, a machine over all event sequences, and theorems about every run.
- **Session list** (`StableSort`, `SessionListing`, `SessionLaws`, `SessionFlat`,
  `LayoutMerge`, `HubGrouping`, `SharedSeats`, `GroupingsAgree`, `SessionProjects`). The
  loops are methods proved against specification functions; the laws are about those
  functions.
- **Readers** (`FileDiff`, `FileDiffFiles`; `ChatInline`, `ChatSpans`, `ChatLines`,
  `ChatMarks`, `ChatBlocks`, `ChatReading`, `ChatDrawing`). The
  unified diff reader against patches as the POSIX.1-2017 `diff` utility prints them
  ("Diff -u or -U Output Format"), and the chat markdown splitter.
- **Key strip** (`KeyStrip`, `KeyStripView`, `KeyTray`). Drag arithmetic over `real`.

Text is `JsText.Str`, a sequence of UTF-16 code units, lone surrogates included; its byte
length follows section 3 of RFC 3629. Sorting is stable as in section 23.1.3.30 of
ECMA-262. A world is folded over a sequence of events; an event that is not enabled does
nothing, so "every run" is every sequence of events.

What is taken from the surroundings: a refusal or one of the not-sent error codes means
nothing was written, `written_to_pty` means it was, and a prompt handed over is typed at
most once (`mobile/src/ipc.ts:847-854`, `mobile/src/chatQueue.ts:168-179`); storage writes
succeed; at most one live controller exists per session (`mobile/src/app.ts:4064-4090`);
the continuations of one answered send run as one step; minted launch names are new;
collation is some consistent comparison, a parameter.

Where the code falls short of a promise there is an example, and beside it the exact
condition under which the promise holds:

- Drafts may be written out of submit order, after an answer was lost and its text given
  back (`LateWriteOvertakes`; `WriteBreaksOrder` and `OrderCanBreak` say exactly when).
- An answer state the build does not know is shown as "not sent" although the prompt may
  have been written (`UnknownStateHidesAWrite`; `SettleTells` says exactly for which
  answers, `MayBeWritten` exactly for which drafts). The comment at
  `mobile/src/ipc.ts:847-854` takes every error as "nothing written"; the code, which the
  model follows, takes only the listed ones so.
- A draft added to a prompt that waits for another conversation goes out there with it
  (`AddedGoesElsewhere`, `OwnTarget`), although `mobile/src/chatQueue.ts:17-19` has every
  prompt go only where it was written for.
- An input that arrives while a sheet for another approval is up is released on that
  other approval's check (`RidesOnAnotherProof`, `OwnApprovalOrNot`).
- The list of "every session, seated or not" leaves unseated sessions out as soon as any
  desktop is occupied (`UnseatedIsDropped`, `AllRowsAreAllSessions`).
- A conversation that was read is shown empty after a forced ask is answered "unchanged"
  (`ForcedUnchangedEmpties`; `LastReadIsShown` says exactly when what was read is shown).
- A heading that ends in a hash loses it, as in "# C#" (`SharpIsLost`, `HeadingShowsAll`).
- The two session lists may order sessions that share a seat number differently
  (`SharedSeatDiffers`, `OneComputerAgrees`).
- A desktop named twice would be drawn twice (`RepeatedDesktop`, `DrawnAsOftenAsNamed`);
  a merged sidebar names each once (`LeastComputerWins`).
- The name of a launch press is forgotten when its screen is left
  (`ReopenedIsAnotherPress`, `OldNameExactly`).

## Model

| member | source | states |
|---|---|---|
| `ChatQueue.SendableIsFixpoint` | mobile/src/chatQueue.ts:50-67 | A text is non-blank, free of control characters and at most 3072 UTF-8 bytes if and only if normalising returns it unchanged. |
| `ChatQueue.NormalizeGivesSendable` | mobile/src/chatQueue.ts:56-67 | Normalising accepts exactly the texts whose line-feed form is sendable, and returns that form; else it names the first thing wrong: blank, a control character, or the bytes over 3072. |
| `ChatQueue.LineEndBecomesOne` | mobile/src/chatQueue.ts:59 | Each carriage return, with the line feed right after it if there is one, becomes one line feed, and the rest of the text is normalised the same way. |
| `ChatQueue.JoinSendable` | mobile/src/chatQueue.ts:104-122 | Two non-blank texts joined by the joiner are sendable if and only if both are and the bytes with the joiner fit. |
| `ChatQueue.EnqueueRule` | mobile/src/chatQueue.ts:104-122 | A draft is accepted if and only if it is sendable and fits behind what waits; then it stands whole behind it, and target and time stay those of the first. |
| `ChatQueue.SettleTells` | mobile/src/chatQueue.ts:147-206 | Kept, with its reason, if and only if the refusal is not_idle, attention_pending or probe_timeout or the error is one of the three not-sent codes; any other refusal comes back under its own code and any other error as uncertain; sent only on proof of writing; a plain refusal without proof of not writing happens exactly for an answer state the build does not know. |
| `ChatQueue.ReturnHoldsBoth` | mobile/src/chatQueue.ts:129-132 | The composer holds the text that comes back and, after a blank line, what was being typed unless that was blank, and nothing else. |
| `ChatQueue.AfterDeliverySplits` | mobile/src/chatQueue.ts:222-244 | Delivered part, joiner and what was added rebuild the queued text: sent leaves exactly the addition, kept leaves all of it, otherwise all of it is given back. |
| `ChatQueue.QueueStorage.WriteEntry` | mobile/src/chatQueue.ts:346-357 | Writes or removes one session's entry and leaves every other entry alone. |
| `ChatQueue.QueueStorage.SaveQueuedPrompt` | mobile/src/chatQueue.ts:365-382 | The entry becomes the queued prompt with its `sending` mark, or none; other sessions untouched. |
| `ChatQueue.QueueStorage.SaveReturnedDraft` | mobile/src/chatQueue.ts:388-395 | The entry becomes the given-back text with its reason, or none for blank text; other sessions untouched. |
| `ChatView.GiveBackAgrees` | mobile/src/chatView.ts:312-317 | Given-back text stands in the composer in front of what was being typed, and storage holds exactly the composer with its reason. |
| `ChatView.SettledAgrees` | mobile/src/chatView.ts:589-622 | Settling keeps storage the image of the controller, and a disposed controller stores what a live one with an empty composer would. |
| `ChatView.SettledStored` | mobile/src/chatView.ts:589-622 | The entry each settlement leaves: the addition, the whole queue unmarked, or the text given back with its reason in front of what was being typed. |
| `ChatView.Flight.constructor` | mobile/src/chatView.ts:214-230 | A flight carries the prompt and its owner. |
| `ChatView.Flights.constructor` | mobile/src/chatView.ts:230 | No delivery is out when the app starts. |
| `ChatView.ChatController.constructor` | mobile/src/chatView.ts:653-673 | A new controller takes over a delivery that is out, or restores the stored queue, or gives an interrupted prompt back as uncertain. |
| `ChatView.ChatController.PutBack` | mobile/src/chatView.ts:312-317 | Puts text into the composer and stores it as given back. |
| `ChatView.ChatController.Submit` | mobile/src/chatView.ts:675-691 | An accepted draft joins the queue, the composer empties and the queue is stored; a refused one changes nothing. |
| `ChatView.ChatController.Edit` | mobile/src/chatView.ts:374-383 | Takes the queue back into the composer unless it is being delivered. |
| `ChatView.ChatController.Cancel` | mobile/src/chatView.ts:384-391 | Empties the queue unless it is being delivered. |
| `ChatView.ChatController.Type` | mobile/src/chatView.ts:695-707 | The composer takes the text; given-back text follows it in storage until it is blank. |
| `ChatView.ChatController.Deliver` | mobile/src/chatView.ts:632-651 | A prompt leaves if and only if one is due and the controller lives, and only after its mark is stored. |
| `ChatView.ChatController.Settle` | mobile/src/chatView.ts:589-622 | Applies the result to the queue, the composer and the stored entry of its own session only. |
| `ChatView.ChatController.Follow` | mobile/src/chatView.ts:625-629 | The flight is forgotten, and only its owner settles it. |
| `ChatView.ChatController.Dispose` | mobile/src/chatView.ts:779-784 | Leaves state and storage as they are. |
| `ChatView.AnswerArrives` | mobile/src/chatView.ts:589-629 | However many controllers waited for one answer, in whatever order they run, the owner settles once, the others change nothing, and the flight is no longer out. |
| `ChatProtocol.EveryRun` | mobile/src/chatView.ts:589-707 | The protocol invariant holds after every sequence of submits, edits, sends, lost or late answers, disposals, adoptions and crashes. |
| `ChatProtocol.QueueSplits` | mobile/src/chatQueue.ts:222-240 | In every invariant state the queued text is the part on the wire, the joiner and what was added meanwhile. |
| `ChatGuarantees.NeverTwice` | mobile/src/chatView.ts:589-673 | In every run no accepted draft reaches the agent twice, and one that waits with no delivery out was never written and cannot be written by an earlier send. |
| `ChatGuarantees.StorageIsTheHolder` | mobile/src/chatView.ts:309-317 | Between any two steps storage is the image of the holder: its queue, marked exactly while a delivery is out, or its given-back text, never both. |
| `ChatGuarantees.NothingDropped` | mobile/src/chatView.ts:589-691 | Every accepted draft is at each point in exactly one of queue, sent, given back or removed; what counts as sent was written. |
| `ChatGuarantees.GivenBackIsKept` | mobile/src/chatView.ts:589-617 | A draft comes to count as given back only by a step that stores the whole queued text, then what was being typed, as given back with that reason, and puts it in the composer on screen. |
| `ChatGuarantees.RefusalKeepsOrReturns` | mobile/src/chatQueue.ts:147-201 | In every run a refused delivery leaves the queue as it was, unmarked and with its reason, for not_idle, attention_pending and probe_timeout; for any other code the queue is empty and every draft of it is given back under that code. |
| `ChatGuarantees.FailureKeepsOrReturns` | mobile/src/chatQueue.ts:168-189 | In every run a failed delivery leaves the queue as it was for the three not-sent codes; for any other error all of it is given back as uncertain. |
| `ChatGuarantees.AnswerSettles` | mobile/src/chatView.ts:589-622 | In every run a written answer moves exactly the drafts of the last send to the sent ones and leaves what was added meanwhile; an answer that does not say gives everything back. |
| `ChatGuarantees.LeavesWhenIdle` | mobile/src/chatView.ts:632-651 | A prompt leaves only when the agent is seen idle, and then it is all that is queued, marked in storage first. |
| `ChatGuarantees.SubmitDecides` | mobile/src/chatView.ts:675-691 | In every run a draft joins the queue, last, and leaves the composer if and only if it is sendable and fits behind what waits; any other submit changes nothing. |
| `ChatGuarantees.OpenedTakesOver` | mobile/src/chatView.ts:653-673 | In every run a controller opened while a delivery is out owns it and shows the whole stored queue as being sent. |
| `ChatGuarantees.TypingFollows` | mobile/src/chatView.ts:695-707 | In every run typed text stands in the composer, and given-back text follows it in storage with its reason until it is blank; a stored queue is untouched. |
| `ChatGuarantees.TakenOutByThePerson` | mobile/src/chatView.ts:374-391 | Only Edit and Cancel take drafts out of the queue, Edit puts the whole queued text in the composer in front of what was being typed, and Cancel leaves the composer as it is. |
| `ChatGuarantees.OnlyThePersonClears` | mobile/src/chatView.ts:653-707 | Given-back text stays stored as it is until the person types in the composer or submits. |
| `ChatGuarantees.TextsAreTheDrafts` | mobile/src/chatQueue.ts:104-132 | The stored queue and every text handed to `send` are the drafts joined in submit order, and each is a fixpoint of normalising. |
| `ChatGuarantees.OneSettler` | mobile/src/chatView.ts:625-629 | Among distinct followers exactly the owner settles. |
| `ChatGuarantees.OneFlightOneSettler` | mobile/src/chatView.ts:624-663 | At most one send of an app run is unanswered, and exactly one controller will settle it: the one on screen if there is one. |
| `ChatGuarantees.DeathLosesNothing` | mobile/src/chatView.ts:632-673 | After a crash at any point the reopened chat has the same queue, or the same given-back text, or the marked prompt given back whole as uncertain. |
| `ChatGuarantees.TargetStays` | mobile/src/chatQueue.ts:104-122 | The prompt target does not change while the queue holds something. |
| `ChatTargets.SentUnder` | mobile/src/chatView.ts:632-651 | Every send goes to the target its drafts were queued under: the one the queue held at their submit, or their own if it was empty. |
| `ChatTargets.OwnTarget` | mobile/src/chatQueue.ts:104-122 | Whatever happens later, a draft goes out to the conversation it was submitted for if and only if the queue was empty then or held something for the same one. |
| `ChatTargets.AddedGoesElsewhere` | mobile/src/chatQueue.ts:104-122 | A run in which a draft submitted for one conversation goes out to another, with the prompt it was added to. |
| `ChatGuarantees.WrittenInOrder` | mobile/src/chatQueue.ts:222-244 | Prompts settled as sent are in submit order, and a draft written after a later one had been given back for a reason that does not rule a write out. |
| `ChatGuarantees.LateWriteOvertakes` | mobile/src/chatQueue.ts:175-206 | A run in which the second draft is written before the first: an answer lost, a second prompt, a late write. |
| `ChatLateWrites.WriteBreaksOrder` | mobile/src/chatQueue.ts:182-206 | A late write puts an earlier draft behind a later one if and only if a later send has been written already. |
| `ChatLateWrites.OrderCanBreak` | mobile/src/chatQueue.ts:182-206 | After any run, what can still be written can break submit order if and only if a send neither written nor ruled out has a later one behind it that is not ruled out. |
| `ChatGuarantees.GivenBackHonestly` | mobile/src/chatQueue.ts:168-206 | A given-back draft was written only if its reason is the warning or the nameless refusal, and then by a send no answer decided; without the warning only by one whose answer state the build does not know. |
| `ChatLateWrites.MayBeWritten` | mobile/src/chatQueue.ts:168-206 | A given-back draft is written or can still be if and only if a send that carried it was never decided. |
| `ChatGuarantees.UnknownStateHidesAWrite` | mobile/src/chatQueue.ts:182-206 | A run in which such a state gives written text back as a plain refusal. |
| `ChatTranscript.SameEntriesSameRows` | mobile/src/chat.ts:132-143 | Entries judged the same paint the same rows. |
| `ChatTranscript.ApplyKeepsPaint` | mobile/src/chat.ts:160-199 | A skipped repaint shows what repainting would have shown. |
| `ChatTranscript.AnswerShows` | mobile/src/chat.ts:160-187 | A read answer replaces entries, completeness, cursor, provider and conversation; "unchanged" to an unforced ask keeps all of them and the paint and takes the cursor if it brings one; every other answer keeps what is shown. |
| `ChatTranscript.RefusalShows` | mobile/src/chat.ts:188-236 | Which refusals fall back, which are named as the reason for waiting and which are not, and what each failure shows, the third silent close in a row included. |
| `ChatTranscript.LastReadIsShown` | mobile/src/chat.ts:160-187 | Over every run the conversation shown is the one last read, unless a forced ask was later answered "unchanged", which leaves nothing. |
| `ChatTranscript.NothingReadNothingShown` | mobile/src/chat.ts:178-187 | Over every run nothing is painted until something was read. |
| `ChatTranscript.ForcedUnchangedEmpties` | mobile/src/chat.ts:178-187 | A run in which a read conversation is emptied by "unchanged" in answer to a forced ask. |
| `ChatTranscript.RowOfEntry` | mobile/src/chat.ts:316-324 | The rows are the entries that are not blank, in order, each with its role, whole text and truncation mark. |
| `ChatTranscript.EntryIsPainted` | mobile/src/chatView.ts:341-348 | Over every run each entry shown that is not blank is painted at its place among those, and the older-messages line stands exactly while the history is incomplete. |
| `ChatTranscript.TranscriptView.constructor` | mobile/src/chatView.ts:341-348 | Starts with nothing asked, nothing painted and no run of silent closes. |
| `ChatTranscript.TranscriptView.Refresh` | mobile/src/chatView.ts:565-571 | An ask goes out only if none is out, with the last cursor unless it is forced; otherwise it is remembered, forced if any was. |
| `ChatTranscript.TranscriptView.Apply` | mobile/src/chatView.ts:542-562 | A step sets the transcript, the wait or the fallback, and repaints only when told to. |
| `ChatTranscript.TranscriptView.AskEnded` | mobile/src/chatView.ts:572-585 | The answer or failure is applied; a follow-up ask goes out if and only if one came up meanwhile and the chat can still ask, with the cursor its force calls for. |
| `ChatTranscript.TranscriptView.Retry` | mobile/src/chatView.ts:414-421 | A fallback is lifted; an ask goes out if and only if there was one and none is out already, without a cursor. |
| `ChatTranscript.EveryRun` | mobile/src/chatView.ts:542-586 | The invariant of painting, asking and counting holds after every sequence of refreshes, answers, retries and disposals. |
| `ChatTranscript.PaintedIsCurrent` | mobile/src/chatView.ts:341-348 | What is painted is always what painting the current transcript afresh would show, the completeness line included. |
| `ChatTranscript.NoRefreshIsLost` | mobile/src/chatView.ts:565-586 | At most one ask is out, and once none is, every refresh not cut off was followed by an ask started after it, forced if it was. |
| `ChatTranscript.OnlyFallbackVoids` | mobile/src/chatView.ts:542-586 | Only a fallback on screen or leaving the chat cuts a refresh off. |
| `ChatTranscript.SilentClosesCounted` | mobile/src/chat.ts:208-234 | The counter is the length of the run of silent closes ending at the last completed ask, and asks and results match up to the one that is out. |
| `ApprovalGate.ApprovalGateObject.constructor` | mobile/src/approvalGate.ts:42-50 | Starts with no approval, no proof, nothing waiting. |
| `ApprovalGate.ApprovalGateObject.Observe` | mobile/src/approvalGate.ts:65-67 | The pending approval becomes the one the agent state names. |
| `ApprovalGate.ApprovalGateObject.Admit` | mobile/src/approvalGate.ts:68-91 | Passes an input on, queues it behind the sheet that is up, or opens a sheet for the pending approval. |
| `ApprovalGate.ApprovalGateObject.SheetAnswered` | mobile/src/approvalGate.ts:52-62 | A passed sheet of the current generation releases the queue in order; a failed one drops it; an older one does nothing. |
| `ApprovalGate.ApprovalGateObject.Reset` | mobile/src/approvalGate.ts:92-98 | Starts a new generation with nothing pending, proven or waiting. |
| `ApprovalGate.EveryRun` | mobile/src/approvalGate.ts:42-99 | The gate invariant holds after every sequence of observations, inputs, answers and resets. |
| `ApprovalGate.OrderKept` | mobile/src/approvalGate.ts:52-99 | Each input is released once, waiting or dropped; releases are in admission order; something waits exactly while a sheet is up. |
| `ApprovalGate.AdmitDecides` | mobile/src/approvalGate.ts:68-83 | In every run: with no sheet up an input goes out at once if and only if the gate is off, no approval is waited on or that one was the last proven, and else a sheet goes up for it; with one up it waits last in line. |
| `ApprovalGate.AnswerDecides` | mobile/src/approvalGate.ts:52-63 | In every run: a passed check lets out everything behind the sheet in order and proves its approval; any other answer drops it all and proves nothing. |
| `ApprovalGate.PendingIsLastSeen` | mobile/src/agentRuntimeState.ts:36-39 | The approval waited on is the one the last seen state names, or one told by its revision if it names none, or none at all. |
| `ApprovalGate.StaleSheetDoesNothing` | mobile/src/approvalGate.ts:52-62 | A sheet answered after a reset releases, drops and proves nothing. |
| `ApprovalGate.OnlyAfterACheck` | mobile/src/approvalGate.ts:68-91 | An input admitted while the gate was on and an approval pending came out only after a check passed in its generation. |
| `ApprovalGate.ProvenWasPassed` | mobile/src/approvalGate.ts:52-62 | The proven approval is one whose own sheet passed since the last reset. |
| `ApprovalGate.OncePerApproval` | mobile/src/approvalGate.ts:68-91 | The owner is asked about a proven approval again only if another was proven in between. |
| `ApprovalGate.OwnApprovalOrNot` | mobile/src/approvalGate.ts:68-91 | A gated input came out on its own approval if and only if no sheet was up as it arrived or the one up asked about that approval. |
| `ApprovalGate.RidesOnAnotherProof` | mobile/src/approvalGate.ts:68-91 | A run in which an input is released on another approval's check without its own being asked. |
| `PushSync.PushSyncObject.constructor` | mobile/src/pushNotifications.ts:21-28 | Starts idle with nothing desired. |
| `PushSync.PushSyncObject.Continue` | mobile/src/pushNotifications.ts:29-58 | From the head of the loop to its next wait, or out of it. |
| `PushSync.PushSyncObject.Request` | mobile/src/pushNotifications.ts:60 | The newest request replaces the one waiting and starts the loop if it has stopped. |
| `PushSync.PushSyncObject.Dispose` | mobile/src/pushNotifications.ts:61 | Nothing is wanted any more and nothing more is published. |
| `PushSync.PushSyncObject.PermissionAnswered` | mobile/src/pushNotifications.ts:29-58 | The permission answer leads to a call, an error or the newer request. |
| `PushSync.PushSyncObject.SyncAnswered` | mobile/src/pushNotifications.ts:29-58 | What the answer makes of the call is published only if nothing newer has come; `ResultTells` says what that is. |
| `PushSync.ResultTells` | mobile/src/pushNotifications.ts:43-55 | Unsupported, registered, unpaired, off or error, each exactly under its own condition on the support, the outcomes and the preference; an error carries the text of the first outcome that has one. |
| `PushSync.StepIsTheMachine` | mobile/src/pushNotifications.ts:26-62 | Each event of the machine the runs are stated over leaves the variables, publications and calls the object is proved to leave. |
| `PushSync.RunsAreTheObject` | mobile/src/pushNotifications.ts:26-62 | That holds at every event of every run. |
| `PushSync.EveryRun` | mobile/src/pushNotifications.ts:26-62 | The loop invariant holds after every sequence of requests, answers and disposals. |
| `PushSync.CallsNeverOverlap` | mobile/src/pushNotifications.ts:29-58 | Only the last call can be unanswered, and a call carries a level if and only if it was wanted and permission is granted. |
| `PushSync.ReportsAreCurrent` | mobile/src/pushNotifications.ts:29-58 | A report is about the newest request of its moment and of that request's own call. |
| `PushSync.ReportsTell` | mobile/src/pushNotifications.ts:40-55 | Over every run each report of a call is exactly what that call's preference and answer make of it, in those terms. |
| `PushSync.PermissionErrorTold` | mobile/src/pushNotifications.ts:37-55 | A permission that could not be read is reported with its text and no call is made. |
| `PushSync.StaleAnswersAreSilent` | mobile/src/pushNotifications.ts:29-58 | After a newer request or a dispose no outcome that was under way is published. |
| `PushSync.StoppedMeansDone` | mobile/src/pushNotifications.ts:29-60 | When the loop has stopped undisposed, nothing is waiting and the last published state is an outcome of the last request. |
| `PushSync.NoRequestIsLost` | mobile/src/pushNotifications.ts:29-60 | The newest request is waiting with the loop running, being served, or already reported on. |
| `PushSync.OffIsAcknowledged` | mobile/src/pushNotifications.ts:29-58 | "Off" is published only after a call without a preference came back supported and without an error. |
| `StableSort.SortPermutes` | mobile/src/allSessions.ts:285-288 | The sort neither loses nor adds a row. |
| `StableSort.SortOrders` | mobile/src/allSessions.ts:285-288 | With a consistent comparator the result is in order. |
| `StableSort.SortStable` | mobile/src/allSessions.ts:210-212 | Sources the comparator does not tell apart keep their order. |
| `StableSort.OnlyOneSort` | mobile/src/allSessions.ts:210-212 | Order and stability together leave one arrangement, so nothing hangs on how the sort works. |
| `SessionListing.LaptopTitles` | mobile/src/allSessions.ts:142-153 | The titles map holds, for each session, the first non-blank trimmed name in listing order, and nothing else. |
| `SessionListing.BuildUnifiedListing` | mobile/src/allSessions.ts:240-292 | The loops compute the groups and the hidden count of the specification the laws below are about. |
| `SessionListing.PlaceAll` | mobile/src/allSessions.ts:247-269 | Each desktop holds the first source of every session seated there; the rest is counted hidden once per session. |
| `SessionListing.RememberedDesktops` | mobile/src/allSessions.ts:271-277 | The set is the desktops an unlisted session sits on, whatever order the entries come in. |
| `SessionLaws.PreferredSplits` | mobile/src/allSessions.ts:184-213 | The preferred order is the openable sources followed by the others, each as they came. |
| `SessionLaws.PreferredFirst` | mobile/src/allSessions.ts:184-213 | The first source of a session in that order is its first openable one, or its first if none opens. |
| `SessionLaws.EverySessionOnce` | mobile/src/allSessions.ts:240-292 | For a duplicate-free desktop order, rows plus hidden are the distinct sessions, and a session is in exactly one row if and only if it is listed and seated. |
| `SessionLaws.RepeatedDesktop` | mobile/src/allSessions.ts:279-289 | A desktop named twice in the order is drawn twice, so the count fails there. |
| `SessionLaws.DrawnAsOftenAsNamed` | mobile/src/allSessions.ts:279-289 | For any desktop order, a listed and seated session is drawn exactly as often as its desktop is named, and any other not at all. |
| `SessionLaws.RowsAreFaithful` | mobile/src/allSessions.ts:156-173 | Each row is its session's best route, drawn with its own seat under its own desktop, and rows follow seat order. |
| `SessionLaws.LaptopNameFirst` | mobile/src/allSessions.ts:142-153 | The laptops' name of a session is the first one in listing order that is not blank, trimmed. |
| `SessionLaws.RowsSay` | mobile/src/allSessions.ts:156-173 | Each row is titled by the laptops' name if there is one, else by its own, else by its id, badged by program or else provider, and has its seat's project, branch and order. |
| `SessionListing.SourceOfCensus` | mobile/src/allSessions.ts:188-197 | The directly reached sessions come first, one source each, in order. |
| `SessionListing.SourceOfHub` | mobile/src/allSessions.ts:198-208 | Then each computer's sessions in listing order, with that computer's name and reach. |
| `SessionLaws.SshOnTies` | mobile/src/allSessions.ts:183-213 | A session is opened through a computer only where no SSH route to it is as good. |
| `SessionLaws.HeadingsStay` | mobile/src/allSessions.ts:271-289 | The headings are exactly the desktops some session sits on, in sidebar order, whatever the two routes list. |
| `SessionFlat.FlattenRows` | mobile/src/allSessions.ts:360-387 | The loop and the sort compute the flat list the law below is about. |
| `SessionFlat.CompareOrders` | mobile/src/allSessions.ts:376-386 | The comparator is consistent for every consistent collation. |
| `SessionFlat.FlattenedWhole` | mobile/src/allSessions.ts:360-387 | Every session of either route is drawn once, by its best route, openable ones first, in the comparator's order. |
| `SessionFlat.FlatOrder` | mobile/src/allSessions.ts:376-386 | Rows of reachable, ready sessions stand above the rest, then by machine, by title and by id. |
| `SessionFlat.FlatRowsSay` | mobile/src/allSessions.ts:360-374 | Each flat row is titled and badged as in the grouped list and has no project. |
| `SessionFlat.AllSessionRows` | mobile/src/allSessions.ts:303-311 | The grouped rows if any group stands, else the flat list. |
| `SessionFlat.AllRowsAreAllSessions` | mobile/src/allSessions.ts:294-311 | Every listed session is there exactly once if and only if no desktop is occupied or every listed session has a seat. |
| `SessionFlat.UnseatedIsDropped` | mobile/src/allSessions.ts:294-311 | A session without a seat is missing as soon as an unrelated, unlisted session has one. |
| `LayoutMerge.MergeLayouts` | mobile/src/allSessions.ts:114-127 | The loops compute the merged sidebar of the specification. |
| `LayoutMerge.AddNames` | mobile/src/allSessions.ts:119-121 | Appends the names not there yet, in order. |
| `LayoutMerge.AddSeats` | mobile/src/allSessions.ts:122-124 | Seats already given win, in whatever order the entries come. |
| `LayoutMerge.RecordOrderIsNothing` | mobile/src/allSessions.ts:102-127 | The same computers give the same sidebar however the record is ordered. |
| `LayoutMerge.LeastComputerWins` | mobile/src/allSessions.ts:114-127 | A session sits where the computer with the least id that seats it puts it; the merged desktop order has no duplicates. |
| `LayoutMerge.TextLeMeans` | mobile/src/allSessions.ts:114-116 | Ids are ordered by the first code unit where they differ, and a prefix comes first. |
| `LayoutMerge.EarlierOrderStands` | mobile/src/allSessions.ts:117-121 | Later computers only add desktops at the end. |
| `LayoutMerge.MergedListsOnce` | mobile/src/allSessions.ts:114-292 | With sidebars merged from any computers, rows plus hidden are the distinct sessions and each seated one has exactly one row. |
| `HubGrouping.GroupHubRowsByLayout` | mobile/src/hubs.ts:212-243 | The loops compute the groups and the hidden count of the computer's own list. |
| `HubGrouping.SeatRows` | mobile/src/hubs.ts:216-231 | Each desktop holds the rows seated there in the order they came; the rest is counted hidden. |
| `HubGrouping.SortedRowsAre` | mobile/src/hubs.ts:102-137 | The sorted rows are the sessions, each under its trimmed name or its id. |
| `HubGrouping.HubRowsOrder` | mobile/src/hubs.ts:125-132 | Ready sessions stand above the rest, then by title and by id. |
| `HubGrouping.HubRowsSay` | mobile/src/hubs.ts:102-116 | Each row has its session's trimmed name or else its id, its program or else its provider, and its readiness. |
| `GroupingsAgree.OneComputerAgrees` | mobile/src/hubs.ts:212-243 | For one computer with distinct ids and no SSH the two groupings have the same non-empty desktops in order with the same sessions, titles and projects and equal hidden counts; a desktop has the same sequence if and only if any two sessions on one seat number come in the same order in the preferred sources and in the title-sorted rows. |
| `GroupingsAgree.SameSequenceApart` | mobile/src/hubs.ts:212-243 | Where no two sessions of a desktop share a seat number, it shows the same sequence in both lists. |
| `SharedSeats.FacesAlikeExactly` | mobile/src/hubs.ts:233-241 | Two arrangements of the same sessions, sorted by seat, show the same sequence if and only if sessions sharing a seat number come in the same order in both. |
| `GroupingsAgree.SharedSeatDiffers` | mobile/src/hubs.ts:125-132 | Two sessions on one seat number, listed against the order of their titles, stand in different order in the two lists. |
| `SessionProjects.GroupByProject` | mobile/src/allSessions.ts:330-347 | The groups are the trimmed projects in order of first appearance, each with exactly its rows in order. |
| `SessionProjects.ProjectsPartition` | mobile/src/allSessions.ts:319-347 | No heading twice, none empty, and no row lost or drawn twice. |
| `SessionProjects.RowsUnderTheirProject` | mobile/src/allSessions.ts:330-347 | A row stands under a heading if and only if its trimmed project is that heading. |
| `FileDiff.ReadLines` | mobile/src/fileDiff.ts:70-108 | The loop draws the rows of the specification and says whether any header was seen. |
| `FileDiff.ParseUnifiedDiff` | mobile/src/fileDiff.ts:63-111 | Splits the patch, drops an empty last line and reads the rest. |
| `FileDiff.HeaderReads` | mobile/src/fileDiff.ts:52 | The header pattern finds, in every printed hunk header, the two printed start numbers. |
| `FileDiff.PatchReadsBack` | mobile/src/fileDiff.ts:63-111 | A printed single-file patch is read back row for row: one row per printed hunk line, and each numbered row's text stands at that number in the file it belongs to. |
| `FileDiffFiles.SeveralFiles` | mobile/src/fileDiff.ts:63-111 | In a patch of several files every file's hunks read back with true numbers; each header line after the first hunk draws one row, so the rows are the hunks' alone if and only if there is no such line. |
| `FileDiff.RowsMakeTheNewFile` | mobile/src/fileDiff.ts:63-111 | Replaying the parsed rows over the old file makes exactly the new file. |
| `ChatInline.ReadInline` | mobile/src/chatMarkdown.ts:150-189 | The loop computes the spans of the specification; it ends on every input. |
| `ChatInline.PieceHere` | mobile/src/chatMarkdown.ts:158-186 | What one turn of the loop reads at a place, marked or plain. |
| `ChatInline.CodeOrTicks` | mobile/src/chatMarkdown.ts:159-173 | A run of backticks reads as code up to the next run like it, or as itself. |
| `ChatInline.StrongOrStar` | mobile/src/chatMarkdown.ts:174-185 | Two stars read as bold up to the next two, or the first of them as itself. |
| `ChatInline.CountTicks` | mobile/src/chatMarkdown.ts:160-161 | Counts the whole run of backticks. |
| `ChatInline.PieceFits` | mobile/src/chatMarkdown.ts:159-185 | What is read at a place is well marked and is what the message has there. |
| `ChatInline.SpansTile` | mobile/src/chatMarkdown.ts:149-189 | Span for span, with marks and padding put back, the spans are the message; no span is empty and no two text spans are adjacent. |
| `ChatSpans.OnlyOneDivision` | mobile/src/chatMarkdown.ts:149-189 | Pieces that make up the message, plain ones apart and holding no mark that could have opened, are exactly the ones it is read in. |
| `ChatLines.ClosesByRun` | mobile/src/chatMarkdown.ts:63-68 | A line closes a fence if and only if, after up to three spaces, it is only the fence's character and at least as many. |
| `ChatLines.FenceMarker` | mobile/src/chatMarkdown.ts:50-57 | An opening's marker is three or more of one fence character, and its line is not blank. |
| `ChatLines.HeadingShowsAll` | mobile/src/chatMarkdown.ts:34 | A heading shows all its text up to trailing spaces if and only if that text does not end in a hash. |
| `ChatMarks.ItemExactly` | mobile/src/chatMarkdown.ts:32-48 | A line is read as an item if and only if it is up to three spaces, a bullet or one to nine digits with a dot or parenthesis, a gap and a text; then with that kind, number and text. |
| `ChatMarks.FenceExactly` | mobile/src/chatMarkdown.ts:31-57 | A line opens a fence if and only if it is up to three spaces, three or more backticks or tildes and an info text, free of backticks after backticks; the language is the info text's first word. |
| `ChatMarks.CloseExactly` | mobile/src/chatMarkdown.ts:63-68 | A line closes a fence if and only if it is up to three spaces, at least as many of the opening's character, and spaces. |
| `ChatMarks.HeadingExactly` | mobile/src/chatMarkdown.ts:34 | A line is a heading if and only if it is up to three spaces, one to six hashes, a gap and a rest; its text is the rest up to the longest trail of spaces, hashes and spaces. |
| `ChatLines.SharpIsLost` | mobile/src/chatMarkdown.ts:135-141 | The line "# C#" reads as a bold "C". |
| `ChatBlocks.ClosesTheLine` | mobile/src/chatMarkdown.ts:103 | The closing test used on recorded lines is the one on the line itself. |
| `ChatBlocks.ReadBlocks` | mobile/src/chatMarkdown.ts:71-72 | Normalises line ends, splits, and builds the blocks of the specification. |
| `ChatBlocks.BuildBlocks` | mobile/src/chatMarkdown.ts:93-146 | The loop over lines computes the blocks of the line-by-line reading. |
| `ChatBlocks.Flush` | mobile/src/chatMarkdown.ts:77-91 | Closes the open paragraph or list into the block its part draws; `BlocksShowTheMessage` says what that shows. |
| `ChatBlocks.ReadItems` | mobile/src/chatMarkdown.ts:84-89 | Reads the inline spans of every list item. |
| `ChatBlocks.ReadFence` | mobile/src/chatMarkdown.ts:99-106 | The body is every line up to the first that closes the fence, or to the end. |
| `ChatBlocks.TakeFence` | mobile/src/chatMarkdown.ts:95-113 | A fence closes what was open and becomes one code block. |
| `ChatBlocks.TakeLine` | mobile/src/chatMarkdown.ts:114-142 | A line outside fences closes, opens or continues what the reading says. |
| `ChatBlocks.TakeItem` | mobile/src/chatMarkdown.ts:119-126 | A marker joins a list of its kind or opens a new one. |
| `ChatBlocks.TakeWords` | mobile/src/chatMarkdown.ts:127-142 | Words continue an item when indented, are a heading, or belong to a paragraph. |
| `ChatBlocks.TakeMore` | mobile/src/chatMarkdown.ts:128-131 | An indented line is added, trimmed, to the last item. |
| `ChatBlocks.PartsTile` | mobile/src/chatMarkdown.ts:71-147 | Every line is in exactly one part, in order; each part is made of the lines its kind allows; only the end leaves a fence open. |
| `ChatReading.OnlyOneReading` | mobile/src/chatMarkdown.ts:71-147 | A division of the lines into such parts, none of which could have gone on, is the reading if and only if it is the one the splitter makes. |
| `ChatReading.MessageKept` | mobile/src/chatMarkdown.ts:71-147 | The parts' lines put together are the message with one kind of line end; only blank lines draw nothing, and every other part draws one block. |
| `ChatDrawing.BlocksShowTheMessage` | mobile/src/chatMarkdown.ts:71-147 | Each part that is not blank has its block in its place, and the block shows the part's own lines: a paragraph all of them joined, a heading its text in bold, a fence its body and language, a list its first marker's kind and number and each item's text with the trimmed lines under it. |
| `ChatDrawing.SpansShow` | mobile/src/chatMarkdown.ts:150-189 | The spans of a text, with marks and padding put back, are that text, and no mark that could have opened stays plain. |
| `ChatReading.CodeVerbatim` | mobile/src/chatMarkdown.ts:99-111 | Every fence of a message is one code block, in its place among the blocks, with the opening line's language and exactly the body's lines. |
| `KeyStrip.CentersIncrease` | mobile/src/keyStripView.ts:304-306 | Positive widths and a non-negative gap give increasing centres. |
| `KeyStrip.DropIndex` | mobile/src/keyStripDrag.ts:36-56 | The two loops compute the drop place; an index outside the row is returned as it is. |
| `KeyStrip.DroppedIsTheLanding` | mobile/src/keyStripDrag.ts:36-56 | For increasing centres the result is the one place whose neighbours' centres the finger lies between. |
| `KeyStrip.SettlesInOneMove` | mobile/src/keyStripDrag.ts:36-56 | For a finger that stays put, the row measured again after the move gives the same place. |
| `KeyStrip.NeverBackwards` | mobile/src/keyStripDrag.ts:36-56 | A finger that goes one way never moves the chip the other way. |
| `KeyStripView.Gesture.constructor` | mobile/src/keyStripView.ts:215-242 | A gesture starts at the chip's own place. |
| `KeyStripView.Gesture.PointerMove` | mobile/src/keyStripView.ts:243-272 | Past the threshold the held chip is carried to the drop place. |
| `KeyStripView.Gesture.Release` | mobile/src/keyStripView.ts:274-290 | The strip is reordered only if a drag ended in another place. |
| `KeyStripView.OthersStay` | mobile/src/keyStripView.ts:255-271 | Over every sequence of moves the other chips keep their order and the held chip stays itself. |
| `KeyStripView.SamePlaceSameRow` | mobile/src/keyStripView.ts:274-290 | Reporting nothing when the chip is back at its start loses nothing. |
| `KeyStripView.EveryDragPermutes` | mobile/src/keyStripView.ts:215-301 | Whatever the finger did, the strip is a permutation of the one before, drawn keys stand as on screen, and undrawn keys keep their slots. |
| `KeyStripView.NotDraggedYet` | mobile/src/keyStripView.ts:243-254 | Below the threshold nothing moves. |
| `KeyStripView.MoveCarries` | mobile/src/keyStripView.ts:243-266 | A finger within six points of where it went down moves nothing until it has been farther; then the chip lands where the finger is and the others keep their order. |
| `KeyTray.ReorderKeys` | mobile/src/keyTray.ts:89-94 | The counter loop computes the reorder of the specification. |
| `KeyTray.ReorderFollowsTheRow` | mobile/src/keyTray.ts:89-94 | The result is a permutation in which drawn keys follow the row and unknown ones keep their slots. |
| `KeyTray.ReorderInPlace` | mobile/src/keyTray.ts:89-94 | A row left as it was drawn changes nothing. |
| `KeyTray.DedupedKeepsFirsts` | mobile/src/keyTray.ts:113-132 | Loading keeps every key once and leaves a duplicate-free list as it is. |
| `KeyTray.DedupedInOrder` | mobile/src/keyTray.ts:113-132 | The kept keys stand in the order they first appear. |
| `KeyTray.ToggleKeepsDistinct` | mobile/src/keyTray.ts:68-74 | Toggling keeps the strip duplicate-free, and toggling a new key twice undoes it. |
| `KeyTray.TogglePuts` | mobile/src/keyTray.ts:68-74 | An unknown key changes nothing, one on the strip is taken out and no other moves, a new one goes last. |
| `KeyTray.KeepInOrder` | mobile/src/keyTray.ts:97-104 | Each known key is drawn, at its place among the known ones. |
| `KeyTray.KeepDistinct` | mobile/src/keyTray.ts:97-104 | Grouping by what can be drawn keeps the strip duplicate-free. |
| `Launch.SamePressMeans` | mobile/src/launch.ts:198-211 | A name is kept if and only if target, kind, folder, worktree choice and, with a worktree, trimmed branch are those it was made for. |
| `Launch.LaunchFlow.constructor` | mobile/src/app.ts:2289-2329 | Starts with no screen and nothing sent. |
| `Launch.LaunchFlow.StartAgent` | mobile/src/app.ts:2289-2309 | The press is recorded on the screen before the request leaves under its name. |
| `Launch.LaunchFlow.OfferCame` | mobile/src/app.ts:2259-2270 | An offer makes whatever launch screen of its computer is up ready, with its first choices filled in. |
| `Launch.LaunchFlow.OfferFailed` | mobile/src/app.ts:2271-2279 | A failed offer marks that screen as failed. |
| `Launch.LaunchFlow.AnswerCame` | mobile/src/app.ts:2310-2316 | An answer reaches the screen of its own computer if that is still up. |
| `Launch.LaunchFlow.AnswerLost` | mobile/src/app.ts:2317-2328 | A lost answer leads back to the ready screen with the press kept. |
| `Launch.LaunchFlow.ChooseAgain` | mobile/src/app.ts:2399-2412 | The screen goes back to ready, with the press or without; `AnswerDecidesName` says for which codes. |
| `Launch.EveryRun` | mobile/src/app.ts:2289-2412 | After every run each name minted stands for one computer and one choice, and the press a screen keeps is one that went out. |
| `Launch.SameNameSameChoice` | mobile/src/launch.ts:190-211 | Over any run two requests under one name ask the same computer for the same thing. |
| `Launch.StartNames` | mobile/src/launch.ts:198-211 | A start goes out for the computer and choice on screen, under the kept press's name if and only if the choice is still that press's, and else under a new one. |
| `Launch.AnswerDecidesName` | mobile/src/launch.ts:165-179 | Over every run the same choice started again after an answer goes out under the same name if and only if the code is screen_silent, screen_unreachable or still_starting, and else under a name no request had. |
| `Launch.AnswerBringsBack` | mobile/src/app.ts:2300-2328 | Over every run an answer or a loss brings back the screen that sent the request, with its form and press, if a launch screen of that computer is up, and else changes nothing seen. |
| `Launch.OfferFills` | mobile/src/app.ts:2259-2270 | An offer makes the screen ready and chooses only what it brings. |
| `Launch.OldNameExactly` | mobile/src/app.ts:2289-2302 | Over any run a start goes out under a name used before if and only if its screen still keeps a press for the choice. |
| `Launch.StartWaits` | mobile/src/app.ts:2289-2309 | A start leaves the screen waiting on its own request. |
| `Launch.RetryReuses` | mobile/src/launch.ts:165-211 | Resending an unchanged choice after a lost answer, or one coded screen_silent, screen_unreachable or still_starting, reuses the name. |
| `Launch.RetriesShareOneName` | mobile/src/launch.ts:165-211 | However often that happens, all the requests go out under one name. |
| `Launch.RetriesStartOneAgent` | mobile/src/launch.ts:165-211 | So a receiver that runs each name once starts one agent. |
| `Launch.PressStartsOne` | mobile/src/launch.ts:165-211 | A press and all its undecided retries add at most one agent, under the press's name. |
| `Launch.LateOfferKeepsPress` | mobile/src/app.ts:2259-2270 | An offer that comes in while a request is out makes the screen ready again, and the same choice still goes out under the same name. |
| `Launch.ReopenedIsAnotherPress` | mobile/src/app.ts:2289-2329 | Left and opened again, the same choice goes out under a new name. |
| `JsText.BlankIsTrimmedAway` | mobile/src/chatQueue.ts:56-67 | A text trims to nothing if and only if it is all white space. |
| `JsText.SplitJoins` | mobile/src/chatMarkdown.ts:72 | Joining the lines of a text gives the text. |
| `JsText.JoinSplits` | mobile/src/chatMarkdown.ts:109 | Splitting joined lines gives the lines. |
| `JsText.SplitPrinted` | mobile/src/fileDiff.ts:63-69 | Splitting printed lines gives them back with an empty last one. |
| `JsText.Utf8Concat` | mobile/src/chatQueue.ts:56-67 | Bytes add up wherever no surrogate pair is cut. |

## Left out

- FileDiff.PatchReadsBack: is about patches of one file, which is what the screen asks for; `FileDiffFiles.SeveralFiles` says exactly what is drawn for several.
- DOM building, painting, focus, scrolling, animation and timers in the view files; the edge scroll of a drag is a parameter of a move.
- The bubble of a sent prompt (`sentPrompt`, `sentPromptSettled` in `chat.ts`): it only decides how long a hint stays on screen.
- Storage that is absent or refuses a write, and stored JSON that is malformed; JSON itself is taken as a faithful codec.
- Object keys that name prototype members, such as a session called "constructor", and seat numbers that are not integers.
- Numbers beyond 2^53 in diff headers: the model's integers are unbounded.
- Re-entrant calls out of `send`, `changed` and the other callbacks.
- `lifecycleState` and `agentKind` of a session row: functions of the session alone.
- Space and folder choice and `canStart` on the launch screen: simple record updates and tests.
- `groupHubRowsByDesktop`, the grouping by machine used before a sidebar has come, and `sortHubs`, `hubTitle` and `hubKnowing`.
- `homeProjection.ts` and `holdDrag.ts`: they rest on functions outside the modelled files.
- The rest of `app.ts`, the Rust side, plugins, and `design/`.
