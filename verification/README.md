# Verified models of the harness's protocols and text machines

Dafny models of the parts of the repository that carry the most state, each with proofs about every
input, every run or every interleaving. `dafny verify dfyconfig.toml` checks them all.

**Text machines.** Six incremental readers and writers are classes or loops over chunks, each proved
equal to a short reading of the whole text: the two SSE readers (`SseReader.dfy`, `SseFrames.dfy`,
after sections 9.2.5 and 9.2.6 of the HTML Standard), the session stream that reconnects with the
last event id (`SessionStream.dfy`, section 9.2.4), the a2ui fence filter (`A2uiStream.dfy`), the
bracketed-paste filter (`PasteFilter.dfy`) and the tool-output collapser (`OutputCollapse.dfy`).
`A2uiReplies.dfy` says what the fence filter prints by a reply's lines, fences and blocks alone.
`ToolRender.dfy`, `JsonTexts.dfy` and `JsonFields.dfy` prove the previews of partial JSON append-only, and
give the exact condition under which the field that is looked for is the one that is read;
`ToolPreviews.dfy` says what they show.

**State machines.** `Debuggee.dfy` (attach and detach queues per tab), `Connection.dfy` (one server
link), `ScreenLock.dfy` and `TokenLedger.dfy` (the stream renderer), `BenchLog.dfy` and `Bench.dfy` (the
resumable trial protocol: what its events mean, and the loop that leaves them). Asynchronous methods are
cut into the stretches of code between two awaits; the theorems hold for every order in which such
stretches can follow each other. For the debugger, the link and the token counters a function `Next` says
what each step does to a value that holds the whole state; the class has the source's fields, each of its
methods is proved to do exactly that step, and the theorems are about all runs of `Next`; what a step
changes and what it leaves is said on its own in `DebuggeeSteps.dfy` and `ConnectionSteps.dfy`. Calls into
the world in `Bench.dfy` may give any answer, a fault, an error, or none because the process died; any
write may fail; and the theorems are about any chain of processes.

**A reducer and its readers.** `TabSet.dfy` proves that what the effects of the tab reducer tell each
server is the state, exactly unless `created` names a tab another server drives, and says what each action
does to the tabs each server may drive.

**Values.** `Canonical.dfy` proves that the canonical JSON text identifies a value up to key order.
`Stats.dfy` (with `Reals.dfy`) gives the paired bootstrap and the verdict in exact reals, for any random
picks.

Strings are sequences of UTF-16 code units in `ToolRender.dfy`, `ToolPreviews.dfy`, `JsonTexts.dfy`,
`JsonFields.dfy` and `Canonical.dfy`, and of characters elsewhere, where no code looks inside one.

Where code and comments differ, the models follow the code:

- `drivenTabs` says its tabs come in the order they joined; JavaScript lists integer keys in ascending
  order. `ListedAsJoined` says exactly when the two are the same, `ListedOtherwise` is a run in which
  they are not.
- `extractField` can take the end of an earlier string for the key it looks for (`EndingCollides`);
  `FindsTheField` says exactly when it does not.
- `score` says its trial's own tests run before anything is unsealed. This holds within one attempt
  (`OwnTestsBeforeUnsealing`); `OwnTestsRunAgain` says exactly when a second attempt runs them after the
  first has unsealed, and `PromiseFails` is such a run. The case's hidden checks may also have been
  unsealed for its other side (`CaseUnsealedBefore`).
- `handleDetach` returns before it looks at the reason when it is about a tab that we are detaching
  ourselves, so a Cancel reported for that tab stops nothing: `CancelStopsAll` says exactly when the
  user's Cancel stops everything, `CancelMissed` is a run in which it does not.
- `detachAll` says it detaches every tab now. A tab with a command in flight stays attached
  (`PauseSparesBusy`); every other one is detached when its queue has run dry (`PauseDetaches`).
- A second `start` of a link can leave two timers; `StartingSafe` says exactly when. The one caller starts
  a link once.
- Nothing tells a server that another one's `created` took its tab (`StolenTab`).

## Model

| member | source | states |
|---|---|---|
| `SseReader.SseData` | packages/amsp/src/sse.ts:47-90 | For every text and every split into chunks (empty ones, a CRLF cut in half), the events are those of a one-pass reading of sections 9.2.5 and 9.2.6 of the HTML Standard; an unterminated last line or event is dropped |
| `SseReader.Turn` | packages/amsp/src/sse.ts:47-90 | One turn of the read loop keeps what was read and yielded in step with the one-pass reading, and `pending[..from]` free of terminators |
| `SseReader.CutLines` | packages/amsp/src/sse.ts:58-72 | The search loop cuts off exactly the complete lines, and leaves a CR that ends what has arrived until its LF may follow |
| `SseReader.Assemble` | packages/amsp/src/sse.ts:74-88 | The loop over the lines yields and keeps what the array-of-data-lines fold gives |
| `SseReader.FoldRefines` | packages/amsp/src/sse.ts:74-88 | Data lines kept in an array and joined dispatch the same events as the data buffer of section 9.2.6 |
| `SseReader.AtEnd` | packages/amsp/src/sse.ts:89-89 | At the end of the body an unterminated line and an event under way add nothing |
| `SseFrames.ParseSseBody` | packages/cli/src/client.ts:426-486 | Whatever the chunks, the frames are those of the whole text split at LFs |
| `SseFrames.TakeLines` | packages/cli/src/client.ts:457-477 | The inner loop parses every LF-ended line of the buffer once and leaves the rest |
| `SseFrames.SplittersInStep` | packages/cli/src/client.ts:457-477 | Where every CR is followed by a LF, the two readers cut the same lines, one possibly a line ahead after a CR |
| `SseFrames.AssemblersInStep` | packages/cli/src/client.ts:436-450 | From the same lines without `event` fields the two readers assemble the same data |
| `SseFrames.ReadersAgree` | packages/cli/src/client.ts:426-486 | On every text with each CR followed by LF and no `event` field the two readers yield the same data sequence, under any two chunkings |
| `SessionStreams.CutBody` | packages/cli/src/server-task.ts:77-103 | A response body cut off at any character parses to the frames of the first so many items it carried, in order |
| `SessionStreams.Arrived` | packages/cli/src/server-task.ts:80-95 | What a connection yields is a beginning of what the server meant to send after the last event id the client named |
| `SessionStreams.DeliverOne` | packages/cli/src/server-task.ts:94-96 | One more delivered frame extends the delivered stretch of the log by the next entry, or is none of the log's |
| `SessionStreams.SessionStream.Open` | packages/cli/src/server-task.ts:80-85 | A new connection asks for what follows the last event id seen |
| `SessionStreams.SessionStream.Take` | packages/cli/src/server-task.ts:94-96 | Taking a frame clears the drop counter, remembers its id, and keeps delivery exactly once |
| `SessionStreams.SessionStream.Backoff` | packages/cli/src/server-task.ts:105-112 | Gives up exactly when this is more than the fifth drop in a row |
| `SessionStreams.SessionStream.Next` | packages/cli/src/server-task.ts:77-112 | Across any drops and calls the id-carrying frames delivered are one unbroken stretch of the log, from where it began on, each once, in order; a call ends at the first frame of all connections, at one that is not there yet, at the first drop too many or closed, and which of these is settled by what arrives |
| `SessionStreams.FirstFrameArrives` | packages/cli/src/server-task.ts:77-103 | If connection n is the first with a frame, none before it closes the stream, and the drops are not too many, its first frame is returned, after exactly those drops |
| `SessionStreams.WaitsForConnection` | packages/cli/src/server-task.ts:86-112 | If all connections drop, the call waits for another exactly when the drops are not too many, and has given up otherwise |
| `SessionStreams.SessionStream.Turn` | packages/cli/src/server-task.ts:79-102 | One turn of the loop: a frame, one drop more, or nothing to read yet |
| `A2uiStream.OpenerPrefixHeld` | packages/cli/src/a2ui-stream.ts:29-37 | Every prefix of an a2ui opener line matches the hold pattern |
| `A2uiStream.HeldCanOpen` | packages/cli/src/a2ui-stream.ts:29-37 | Every text the hold pattern matches can still become an a2ui opener |
| `A2uiStream.HeldExactly` | packages/cli/src/a2ui-stream.ts:33-37 | A partial line is held exactly while some continuation of it is an a2ui opener |
| `A2uiStream.RuledOutIsNoOpener` | packages/cli/src/a2ui-stream.ts:114-120 | A line of which a part was passed through is never an opener, however it ends |
| `A2uiStream.A2uiStreamFilter.EmitText` | packages/cli/src/a2ui-stream.ts:163-170 | An owed newline goes before the next non-empty text, once |
| `A2uiStream.A2uiStreamFilter.PassThrough` | packages/cli/src/a2ui-stream.ts:158-161 | The rest of the line is printed and nothing of it twice |
| `A2uiStream.A2uiStreamFilter.PartialLine` | packages/cli/src/a2ui-stream.ts:114-120 | After a partial line all but a possible opener is on the screen |
| `A2uiStream.A2uiStreamFilter.CompleteLine` | packages/cli/src/a2ui-stream.ts:122-155 | A completed line leads where the reference reading of the line leads |
| `A2uiStream.A2uiStreamFilter.Push` | packages/cli/src/a2ui-stream.ts:80-95 | Each delta releases what brings the output in step with the reference reading of the text so far, and withholds only what may open a block |
| `A2uiStream.A2uiStreamFilter.Flush` | packages/cli/src/a2ui-stream.ts:98-112 | At the end the whole output equals the reference; the filter is as new |
| `A2uiStream.FilterReply` | packages/cli/src/a2ui-stream.ts:80-176 | For every reply and every chunking, pushes and flush together print the line-by-line reference: text and other fences verbatim, each a2ui block replaced, a newline owed after it |
| `A2uiReplies.FilterIsPrint` | packages/cli/src/a2ui-stream.ts:80-176 | Every text is lines, fences up to their first closing line, and blocks, the last possibly cut off; the filter prints lines and fenced code as they stand, each block by its trimmed fallback, and one newline between a block and what is shown next |
| `A2uiReplies.PrintsParts` | packages/cli/src/a2ui-stream.ts:122-170 | The same for a reply that is given by its parts |
| `A2uiReplies.EveryReply` | packages/cli/src/a2ui-stream.ts:122-155 | Any text splits into such parts |
| `A2uiReplies.BlockIsReplaced` | packages/cli/src/a2ui-stream.ts:122-132 | Text that opens nothing, an a2ui block and a rest: the text, the fallback of the block, a newline if anything follows, and what the rest prints; with an empty fallback only the newline |
| `A2uiReplies.CodeIsVerbatim` | packages/cli/src/a2ui-stream.ts:133-151 | Fenced code comes out as it stands, up to the first line that closes it, and the rest is read as if it came first |
| `A2uiReplies.OpenerIs` | packages/cli/src/a2ui-stream.ts:29-52 | A fence opens with up to three spaces, three marks or more, no character after them that ends a line, and no backtick after backticks |
| `A2uiReplies.A2uiOpenerIs` | packages/cli/src/a2ui-stream.ts:31-52 | An a2ui fence opens with the word alone after its marks, between blanks |
| `A2uiReplies.CloserIs` | packages/cli/src/a2ui-stream.ts:38-57 | A fence is closed by at least as many of its own marks, after up to three spaces and before blanks only |
| `A2uiReplies.TrimIs` | packages/cli/src/a2ui-stream.ts:127-127 | A fallback loses the newlines it ends with, and nothing else |
| `PasteFilters.SplitTrailingPartial` | packages/cli/src/input.ts:25-33 | Holds back the longest end of the data that begins the marker |
| `PasteFilters.ProcessAppend` | packages/cli/src/input.ts:48-86 | Processing two chunks one after the other leads where processing them as one does |
| `PasteFilters.NothingLost` | packages/cli/src/input.ts:48-86 | Putting the markers back into what was delivered, with the buffer and the held tail, rebuilds the input |
| `PasteFilters.WholeRebuilds` | packages/cli/src/input.ts:48-86 | The same for an input from its beginning |
| `PasteFilters.DeliversClean` | packages/cli/src/input.ts:48-86 | No start marker is left in a typed segment and no end marker in a paste, and at most five characters are held |
| `PasteFilters.DeliversWhatWasWrapped` | packages/cli/src/input.ts:48-86 | Pastes wrapped in markers, with marker-free typing between them, are delivered exactly as they were |
| `PasteFilters.PasteFilter.TakeText` | packages/cli/src/input.ts:56-61 | Without a marker all but the possible beginning of one goes through |
| `PasteFilters.PasteFilter.TakeMarker` | packages/cli/src/input.ts:62-82 | At a marker a paste begins, or is delivered whole |
| `PasteFilters.PasteFilter.Transform` | packages/cli/src/input.ts:48-86 | For every chunking the filter is in the state, and has delivered the segments and pastes, that one chunk would have led to |
| `OutputCollapse.EachLineOnce` | packages/cli/src/output-collapse.ts:136-147 | Every line is shown or hidden once exactly when the tail is at least one line or nothing is elided (`slice(-0)` keeps all) |
| `OutputCollapse.SettlesLikeBatch` | packages/cli/src/output-collapse.ts:104-121 | What the stream wrote and settles shows what collapsing the whole output shows |
| `OutputCollapse.OutputIsShown` | packages/cli/src/render.ts:312-315 | The split output less one trailing empty line is the lines a screen shows |
| `OutputCollapse.ToolOutputCollapser.BufferLine` | packages/cli/src/output-collapse.ts:85-91 | The buffer keeps the last lines, at most tail + 1, and counts those dropped |
| `OutputCollapse.ToolOutputCollapser.SpendHead` | packages/cli/src/output-collapse.ts:61-73 | The head loop passes through exactly up to the end of the head allowance |
| `OutputCollapse.ToolOutputCollapser.Push` | packages/cli/src/output-collapse.ts:59-83 | Every chunk keeps the stream in step with the text so far: the head written live, the rest buffered |
| `OutputCollapse.ToolOutputCollapser.Flush` | packages/cli/src/output-collapse.ts:104-121 | Hidden count, head and tail are those of `collapseLines` on the whole output |
| `OutputCollapse.Collapse` | packages/cli/src/output-collapse.ts:59-147 | For every non-empty output, every chunking and tail >= 1, the live text and the settled lines show what `collapseLines` shows |
| `ToolRender.ExtractField` | packages/cli/src/tool-render.ts:84-151 | The search and the decoding loop compute the field's value so far and whether it is complete |
| `ToolRender.DecodeFrom` | packages/cli/src/tool-render.ts:96-151 | The decoding loop reads escapes, stops at the closing quote, and keeps nothing of an escape cut in half |
| `ToolRender.FieldExtends` | packages/cli/src/tool-render.ts:84-151 | Of two prefixes of one text, the field read from the shorter is a prefix of that read from the longer, and a complete value never changes |
| `ToolRender.SingleLineExtends` | packages/cli/src/tool-render.ts:51-53 | Single-lining a longer text extends the single line of a shorter one |
| `ToolRender.CapExtends` | packages/cli/src/tool-render.ts:73-75 | So does capping, though a capped text ends with an ellipsis |
| `ToolPreviews.SingleLineIsWords` | packages/cli/src/tool-render.ts:51-53 | Every text is words and white space; on one line it keeps its words, in order, with exactly one space between any two |
| `ToolPreviews.WordsAreKept` | packages/cli/src/tool-render.ts:51-53 | The same for a text that is given by its words |
| `ToolRender.PayloadExtends` | packages/cli/src/tool-render.ts:234-267 | The payload shown only grows while only one of `cmd` and `command` is present |
| `ToolRender.DescriptionExtends` | packages/cli/src/tool-render.ts:196-208 | A description that shows only grows, and a complete one stays |
| `ToolRender.PreviewExtends` | packages/cli/src/tool-render.ts:196-267 | For `exec_command` and `run_subagent`, with a description expected, or none in the arguments, every preview starts with the one before it, closing parenthesis included, provided arguments that already parse are not extended |
| `JsonTexts.OnlyTheWholeParses` | packages/cli/src/tool-render.ts:180-187 | Of all prefixes of the text of a JSON object, with any white space and nesting, only the whole is a JSON text |
| `JsonTexts.StreamedPreviewExtends` | packages/cli/src/tool-render.ts:180-267 | While the arguments are a cut-off JSON object their preview is only extended: `JSON.parse` accepts none of them early |
| `ToolRender.StrayDescriptionSupersedes` | packages/cli/src/tool-render.ts:196-253 | Without the schema asked first, a description that turns up supersedes a plain preview on the screen |
| `ToolRender.StrayDescriptionSeen` | packages/cli/src/tool-render.ts:196-245 | An `exec_command` call whose description comes last is such an input |
| `ToolPreviews.CallIsShown` | packages/cli/src/tool-render.ts:227-253 | From JSON to the line: a call whose arguments spell a description and what it runs shows both, in the described form |
| `ToolPreviews.DescribedCallShows` | packages/cli/src/tool-render.ts:227-253 | A call with a complete description and payload shows `name <- description (payload)` |
| `ToolPreviews.PlainCallShows` | packages/cli/src/tool-render.ts:227-253 | Without a description, or when none is read, it shows `name <- payload` |
| `ToolPreviews.AwaitedCallIsBlank` | packages/cli/src/tool-render.ts:196-208 | While a description is awaited and has nothing to show, nothing is shown |
| `JsonFields.DecodesSpelling` | packages/cli/src/tool-render.ts:104-148 | However section 7 of RFC 8259 lets a string be spelled, its value is decoded up to the closing quote |
| `JsonFields.FindsTheField` | packages/cli/src/tool-render.ts:84-100 | The value read is the field's own exactly when no string before it ends, from its opening quote or an escaped quote in it, with the field's name |
| `JsonFields.EndingCollides` | packages/cli/src/tool-render.ts:84-100 | Any string that ends with an escaped quote and the name is taken for the key though it is not the name |
| `JsonFields.ExtractsTheField` | packages/cli/src/tool-render.ts:84-151 | Round trip: for every object text with no such string before the field, the field's value comes back whole and complete |
| `Canonical.SortFieldsSorted` | scripts/activity-bench/vault.ts:56-58 | `Object.keys(value).sort()` lists distinct keys in strictly ascending code-unit order |
| `Canonical.SpellingValue` | scripts/activity-bench/vault.ts:61-61 | The spelling `JSON.stringify` gives a string, lone surrogates escaped, denotes that string |
| `Canonical.QuoteTextDelimits` | scripts/activity-bench/vault.ts:61-61 | Where two quoted strings begin the same text they are the same string |
| `Canonical.JoinCut` | scripts/activity-bench/vault.ts:55-60 | A comma-joined list determines its parts and where it ends |
| `Canonical.TextDetermines` | scripts/activity-bench/vault.ts:54-62 | Values with the same text are equal, and no value's text goes on where another's could end |
| `Canonical.SortedKeys` | scripts/activity-bench/vault.ts:57-58 | Two strictly sorted lists with the same keys list them alike |
| `Canonical.SameText` | scripts/activity-bench/vault.ts:54-62 | Equal values have the same text, whatever the order of their keys |
| `Canonical.Identifies` | scripts/activity-bench/vault.ts:54-62 | Two JSON values have the same canonical text if and only if they are equal up to key order |
| `Canonical.HeaderIdentifies` | scripts/activity-bench/vault.ts:213-224 | The header text determines the format, bench, revision, key parameters, cases and part, and nothing more |
| `TabSet.GroupKeyNamesServer` | packages/browser-extension/src/tab-set.ts:71-73 | A group key gives back its server, whatever spaces the server's name has |
| `TabSet.ReleaseTabs` | packages/browser-extension/src/tab-set.ts:122-137 | The release loop is the fold of releasing one tab at a time |
| `TabSet.ReleaseRefines` | packages/browser-extension/src/tab-set.ts:122-137 | Releasing any list of tabs, duplicates included, keeps every server's picture equal to the state |
| `TabSet.StepRefines` | packages/browser-extension/src/tab-set.ts:139-277 | One step keeps every server's picture equal to the tabs it may drive if and only if it is not a `created` of a tab that another server drives |
| `TabSet.StolenTab` | packages/browser-extension/src/tab-set.ts:141-147 | Two servers' `created` of one tab leave the first believing that it still drives it |
| `TabSet.ListedAsJoined` | packages/browser-extension/src/tab-set.ts:87-90 | The driven tabs are listed in the order they joined, as promised, if and only if they joined in ascending order of their ids |
| `TabSet.ListedOtherwise` | packages/browser-extension/src/tab-set.ts:87-90 | Two tabs that joined in descending order are listed the other way round |
| `TabSet.ViewIsState` | packages/browser-extension/src/tab-set.ts:88-90 | After every run in which no such `created` occurs, folding the effects gives each server exactly its driven tabs |
| `TabSet.DetachesTheLost` | packages/browser-extension/src/tab-set.ts:122-277 | A step tells the debugger to let go of a tab exactly when it takes the tab from every server, or forgets its server |
| `TabSet.BecomesDrivable` | packages/browser-extension/src/tab-set.ts:139-190 | A tab becomes drivable only by `created`, `adopted`, or as a page a drivable tab opened that was not in the set: a released one never by itself; it is then announced to its server and put into its group |
| `TabSet.DrivesAfter` | packages/browser-extension/src/tab-set.ts:139-277 | The tabs each server may drive after each action, in terms of those before: release, return, close and drag-out take a tab from every server; opening, handing over and a page opened by a driven tab give it to one; nothing else changes |
| `TabSet.RecordsAfter` | packages/browser-extension/src/tab-set.ts:139-277 | The record of every tab after each action: a released one stays in the set with its reason, and what is not named keeps its record |
| `TabSet.GroupsAfter` | packages/browser-extension/src/tab-set.ts:190-276 | The groups on record after each action |
| `TabSet.TellsTheLosers` | packages/browser-extension/src/tab-set.ts:122-277 | A server is told that a tab is released, and why, or closed, exactly when the action takes it from that server |
| `TabSet.UngroupsTheGone` | packages/browser-extension/src/tab-set.ts:224-277 | A tab that is handed back, and all grouped tabs of a forgotten server, leave their groups, and no others |
| `TabSet.ParseTabSet` | packages/browser-extension/src/tab-set.ts:280-310 | The parsing loops compute the fold that drops what is malformed |
| `TabSet.ParsedIsValid` | packages/browser-extension/src/tab-set.ts:280-310 | Whatever was stored, what is read back is a well-formed state |
| `TabSet.StoredStateRoundTrip` | packages/browser-extension/src/tab-set.ts:280-310 | A well-formed state is read back unchanged, in whatever order it was stored |
| `TabSet.RunRoundTrip` | packages/browser-extension/src/tab-set.ts:280-310 | Every state that a run with the browser's own ids reaches is read back unchanged |
| `Debugging.StepSafe` | packages/browser-extension/src/debuggee.ts:80-257 | Every step, from any safe state, leads to a safe one |
| `Debugging.RunSafe` | packages/browser-extension/src/debuggee.ts:80-257 | Every interleaving of steps stays safe |
| `Debugging.CallsNeverOverlap` | packages/browser-extension/src/debuggee.ts:143-198 | In every interleaving at most one of our attach and detach calls for an open tab is with Chrome at a time, dropped sessions included |
| `Debugging.DetachSparesCommands` | packages/browser-extension/src/debuggee.ts:185-198 | While our detach of an open tab runs, no command of the tab is between its attach step and its end |
| `Debugging.SentWhileAttached` | packages/browser-extension/src/debuggee.ts:94-97 | A command is sent while its tab is attached, unless Chrome ended the attachment after the command's attach step |
| `Debugging.UnusedWillDetach` | packages/browser-extension/src/debuggee.ts:98-101 | An attached session with nothing in flight has its idle timer armed, or a detach queued or running |
| `Debugging.InflightCounts` | packages/browser-extension/src/debuggee.ts:92-101 | `inflight` is the number of commands that are not over |
| `Debugging.Debuggee.Send` | packages/browser-extension/src/debuggee.ts:80-95 | A command is counted, the idle timer cleared, and its attach step queued behind what is queued |
| `Debugging.Debuggee.BeginStep` | packages/browser-extension/src/debuggee.ts:149-189 | The head of the queue starts: an attach step of an attached session, and a detach step of a detached or busy one, end at once |
| `Debugging.Debuggee.DetachForgotten` | packages/browser-extension/src/debuggee.ts:112-116 | A moment after the detach step, with commands possibly in between, forgetting drops the session only if it is still the tab's, detached and unused |
| `Debugging.Debuggee.TabLooked` | packages/browser-extension/src/debuggee.ts:156-166 | A tab that is gone or may not be debugged fails the command, and a restricted one is released |
| `Debugging.Debuggee.AttachAnswered` | packages/browser-extension/src/debuggee.ts:167-183 | An attachment made, or found made, marks the session attached; any other answer fails the command |
| `Debugging.Debuggee.DetachAnswered` | packages/browser-extension/src/debuggee.ts:188-197 | However the detach ends, the session is detached |
| `Debugging.Debuggee.SendCommand` | packages/browser-extension/src/debuggee.ts:96-96 | The command is sent, attached unless Chrome detached since its attach step |
| `Debugging.Debuggee.CommandOver` | packages/browser-extension/src/debuggee.ts:98-101 | The last command over arms the idle timer of an attached session |
| `Debugging.Debuggee.IdleTimerFires` | packages/browser-extension/src/debuggee.ts:200-206 | The idle timer queues a detach |
| `Debugging.Debuggee.Forget` | packages/browser-extension/src/debuggee.ts:105-117 | Forgetting a tab queues a detach that may drop its session |
| `Debugging.Debuggee.DetachAll` | packages/browser-extension/src/debuggee.ts:120-125 | Every attached session gets a detach queued and its timer cleared; others are untouched |
| `Debugging.Debuggee.HandleDetach` | packages/browser-extension/src/debuggee.ts:223-256 | Chrome's own detach is no news while ours runs; otherwise it detaches the session and releases its tab, or all of them when the user cancelled |
| `Debugging.Debuggee.TargetAnswered` | packages/browser-extension/src/debuggee.ts:242-253 | A closed target drops its session if the tab is gone, and releases the tab if it may not be debugged |
| `Debugging.CancelStopsAll` | packages/browser-extension/src/debuggee.ts:223-241 | Cancel detaches every session and releases all tabs if and only if the tab it is reported for is not being detached by ourselves |
| `Debugging.CancelMissed` | packages/browser-extension/src/debuggee.ts:227-227 | A run in which Cancel stops nothing: another tab stays attached, its command under way |
| `DebuggingSteps.PauseDetaches` | packages/browser-extension/src/debuggee.ts:120-125 | After Pause, whatever happens but a new command, a tab that had nothing in flight is detached, and has no timer, as soon as its queue has run dry |
| `DebuggingSteps.PauseSparesBusy` | packages/browser-extension/src/debuggee.ts:120-189 | Pause detaches an attached tab with an empty queue exactly if no command is in flight; with one, the tab stays attached |
| `DebuggingSteps.PauseQueues` | packages/browser-extension/src/debuggee.ts:120-125 | Every session loses its timer, and each attached one gets a detach after what is queued; nothing else changes |
| `DebuggingSteps.SendQueues` | packages/browser-extension/src/debuggee.ts:80-95 | A command is in flight, its attach step last in the queue, and the timer stopped; nothing else changes |
| `DebuggingSteps.DetachQueues` | packages/browser-extension/src/debuggee.ts:105-206 | Idle timer and forgetting queue a detach after what is queued, and leave no timer |
| `DebuggingSteps.BeginTakes` | packages/browser-extension/src/debuggee.ts:149-189 | What the head of the queue does, by whether the session is attached and anything is in flight |
| `DebuggingSteps.LookAnswers` | packages/browser-extension/src/debuggee.ts:156-166 | A tab that is gone or restricted fails the command, and a restricted one is released |
| `DebuggingSteps.AttachAnswers` | packages/browser-extension/src/debuggee.ts:167-183 | Which answers attach the session, which fail the command, and which release the tab |
| `DebuggingSteps.DetachAnswers` | packages/browser-extension/src/debuggee.ts:188-197 | However Chrome answers, the session is detached |
| `DebuggingSteps.ForgottenIsDropped` | packages/browser-extension/src/debuggee.ts:112-116 | A forgotten session is dropped exactly if it is still its tab's, detached and unused |
| `DebuggingSteps.CommandEnds` | packages/browser-extension/src/debuggee.ts:97-101 | A command that is over is not in flight, and the last one arms the timer of an attached session |
| `DebuggingSteps.ChromeDetaches` | packages/browser-extension/src/debuggee.ts:223-256 | Which sessions Chrome's detach ends, and what it releases, by its reason |
| `DebuggingSteps.TargetIsLooked` | packages/browser-extension/src/debuggee.ts:241-253 | What becomes of a closed target, by what its tab is |
| `Connection.StepLinkSafe` | packages/browser-extension/src/connection.ts:105-343 | Every callback keeps the link's sockets, timers, holds and status consistent |
| `Connection.ExactlyOneWayForward` | packages/browser-extension/src/connection.ts:105-203 | In every reachable state a started link has exactly one of a live socket and an armed retry timer, unless it was replaced or mismatched: then, and when stopped, neither |
| `Connection.NoDialBeforeRetryAt` | packages/browser-extension/src/connection.ts:142-148 | No timer and no alarm dials before `retryAt` |
| `Connection.WaitStays` | packages/browser-extension/src/connection.ts:288-293 | A wait is neither put off nor dropped by anything but a dial or a stop |
| `Connection.StopIsFinal` | packages/browser-extension/src/connection.ts:125-130 | A stopped or revoked link stays down and dials nothing until it is started |
| `Connection.HeldStaysDown` | packages/browser-extension/src/connection.ts:256-266 | A replaced or mismatched link stays down, restarted or not, until it is reconnected or gets a new token |
| `Connection.StoppedForGood` | packages/browser-extension/src/connection.ts:125-130 | In every run that goes on from a stopped or revoked link without a start, it stays down and never dials |
| `Connection.HeldForGood` | packages/browser-extension/src/connection.ts:105-122 | In every run that goes on from a replaced or mismatched link without a reconnect or a new token, stopped and started again or not, it stays down and never dials |
| `Connection.RepliesGoHome` | packages/browser-extension/src/connection.ts:205-248 | A reply goes only on the socket its command came on, and no command is answered twice |
| `Connection.AttemptsCount` | packages/browser-extension/src/connection.ts:281-286 | `attempts` counts the failures since the last `hello` or reconnect |
| `Connection.DelayCountsFailures` | packages/browser-extension/src/connection.ts:281-286 | After a failure the link waits the backoff entry for the failures before it, and redials then |
| `Connection.DisabledWaitsAnHour` | packages/browser-extension/src/connection.ts:269-275 | Turned off by the administrator, the link asks again in an hour and counts no failure |
| `Connection.WhatDials` | packages/browser-extension/src/connection.ts:105-155 | Which callbacks dial, and exactly when |
| `ConnectionSteps.SilenceIsWatched` | packages/browser-extension/src/connection.ts:184-197 | In every reachable state a live socket was not heard yet, or its silence timer is due a minute after it last was |
| `ConnectionSteps.OpenedIsWatched` | packages/browser-extension/src/connection.ts:184-192 | An opened socket is watched from now on, or dropped for good without our protocol |
| `ConnectionSteps.MessageIsTaken` | packages/browser-extension/src/connection.ts:193-248 | Each kind of message on the live socket: what is answered, what is handled, what connects the link; and the timer starts over |
| `ConnectionSteps.HandledIsAnswered` | packages/browser-extension/src/connection.ts:242-248 | A handled command is answered, once, exactly if its socket is still the live one and open |
| `ConnectionSteps.CloseLeads` | packages/browser-extension/src/connection.ts:251-304 | Where each close code, and a silent minute, leads |
| `ConnectionSteps.TimersRedial` | packages/browser-extension/src/connection.ts:142-293 | The retry timer and a due alarm dial: a new socket and no timer, or one failure more and a wait |
| `ConnectionSteps.UserDials` | packages/browser-extension/src/connection.ts:133-155 | Reconnecting and a new token forget hold and failures and dial |
| `ConnectionSteps.StartGoes` | packages/browser-extension/src/connection.ts:105-122 | A start dials, or waits for what is left of an hour, or for the user |
| `ConnectionSteps.StopStops` | packages/browser-extension/src/connection.ts:125-130 | A stop leaves no socket and no timer, and changes nothing else |
| `Connection.StartingSafe` | packages/browser-extension/src/connection.ts:105-122 | A start leaves one way forward if and only if it does not meet a link that is started, while that waits out an hour or has a live socket and cannot make another |
| `Connection.ServerConnection.Start` | packages/browser-extension/src/connection.ts:105-122 | On any link, started or not, starting dials, waits or stays held as the hold says; the link is consistent after it exactly when nothing was doubled |
| `Connection.ServerConnection.Stop` | packages/browser-extension/src/connection.ts:125-130 | Stopping leaves no socket and no timer |
| `Connection.ServerConnection.Reconnect` | packages/browser-extension/src/connection.ts:133-139 | Reconnecting ends any hold, forgets the failures and dials |
| `Connection.ServerConnection.Kick` | packages/browser-extension/src/connection.ts:142-148 | The alarm dials only if a wait is due |
| `Connection.ServerConnection.SetToken` | packages/browser-extension/src/connection.ts:151-155 | A new token redials; the same one does nothing |
| `Connection.ServerConnection.Emit` | packages/browser-extension/src/connection.ts:158-162 | An event goes out only on an open socket that has been greeted |
| `Connection.ServerConnection.Dial` | packages/browser-extension/src/connection.ts:164-183 | Dialling clears the timers; a socket that cannot be made is a failure |
| `Connection.ServerConnection.OnOpen` | packages/browser-extension/src/connection.ts:184-192 | A socket without the subprotocol is dropped as mismatched |
| `Connection.ServerConnection.OnMessage` | packages/browser-extension/src/connection.ts:193-197 | A message of the live socket restarts the silence timer and is answered, or handled, once |
| `Connection.ServerConnection.OnClose` | packages/browser-extension/src/connection.ts:198-202 | Only the live socket's close changes anything |
| `Connection.ServerConnection.OnSettled` | packages/browser-extension/src/connection.ts:242-247 | A handled command's reply goes out if its socket is still the live one |
| `Connection.ServerConnection.Closed` | packages/browser-extension/src/connection.ts:251-279 | What each close code leads to |
| `Connection.ServerConnection.WaitToRetry` | packages/browser-extension/src/connection.ts:281-286 | The delay is the backoff entry for the failures so far |
| `Connection.ServerConnection.OnRetry` | packages/browser-extension/src/connection.ts:288-293 | The retry timer dials if the link is not stopped |
| `Connection.ServerConnection.OnSilence` | packages/browser-extension/src/connection.ts:296-304 | A minute of silence counts as a failure of the link |
| `ScreenLock.Screen.Drain` | packages/cli/src/render.ts:682-720 | The drain with its single pass renders what taking one allowed message at a time would |
| `ScreenLock.Screen.Pass` | packages/cli/src/render.ts:694-716 | One pass over a held queue lets the holder's own messages through, in order, and stops when it lets go |
| `ScreenLock.SettledBlocked` | packages/cli/src/render.ts:682-720 | After an unlocked drain no queued message may be rendered: none is the holder's, and none is left when nothing holds |
| `ScreenLock.SettledLeaves` | packages/cli/src/render.ts:682-720 | What a drain leaves queued waits for an open segment of another stream; with none open nothing is left |
| `ScreenLock.OpenIs` | packages/cli/src/render.ts:658-673 | A segment is open exactly if the last message of any stream is its stream's, and no stop |
| `ScreenLock.SettledKeepsOrder` | packages/cli/src/render.ts:675-681 | Draining moves no message past another of its stream, nor past another that stands alone |
| `ScreenLock.OrderMeansPermutation` | packages/cli/src/render.ts:511-514 | What is rendered and what is queued is together a permutation of what was handled |
| `ScreenLock.SettledSafe` | packages/cli/src/render.ts:675-681 | Draining renders nothing into an open segment of another stream, and the holder is the stream of the open segment |
| `ScreenLock.NothingForeignInside` | packages/cli/src/render.ts:658-673 | Between a segment's message and its stop only messages of its stream are rendered |
| `ScreenLock.Screen.Handle` | packages/cli/src/render.ts:511-514 | A message is queued and what may be is rendered; nothing while the screen is locked |
| `ScreenLock.Screen.BeginUserPrompt` | packages/cli/src/render.ts:524-546 | A prompt locks the screen |
| `ScreenLock.Screen.EndUserPrompt` | packages/cli/src/render.ts:642-647 | The end of a prompt drains the queue unless the user types |
| `ScreenLock.Screen.SetInputHold` | packages/cli/src/render.ts:623-627 | Typing locks the screen; letting go drains the queue unless a prompt is up |
| `ScreenLock.Screen.EndTask` | packages/cli/src/render.ts:1269-1275 | The end of a task lets go of everything and drains once; what is left waits for a segment that drain opened |
| `TokenLedger.TokensConserved` | packages/cli/src/render.ts:780-1017 | At every moment printed, discarded, running and staged tokens and the drift of the session total add up to the cumulative total |
| `TokenLedger.PrintedWithinTotal` | packages/cli/src/render.ts:1269-1320 | If each usage raises the session total by its request, the deltas printed never exceed the cumulative growth, and miss exactly what is discarded, running or staged |
| `TokenLedger.LedgerSound` | packages/cli/src/render.ts:782-797 | No counter is negative, and a task without usage has none to print |
| `TokenLedger.CompactionSettles` | packages/cli/src/render.ts:836-849 | Whatever follows in the task, a compaction's usage shows in its line of stats exactly when a normal request ends after it, and is discarded otherwise |
| `TokenLedger.UsageGoes` | packages/cli/src/render.ts:780-797 | Usage waits for its compaction while one is under way, and counts for the task otherwise; a subagent's always counts |
| `TokenLedger.CompactionIsOver` | packages/cli/src/render.ts:899-904 | After a compaction's end, and until another begins, usage is the task's |
| `TokenLedger.CompactionLineShows` | packages/cli/src/render.ts:782-912 | A compaction's line shows the sum of its own requests |
| `TokenLedger.RequestSettles` | packages/cli/src/render.ts:836-850 | The end of a normal request gives the task what was waiting |
| `TokenLedger.EndsLeave` | packages/cli/src/render.ts:899-912 | A compaction's beginning and end count nothing; a task's end leaves only the totals |
| `TokenLedger.Counters.TokenUsage` | packages/cli/src/render.ts:781-797 | Usage goes to the task, or is staged during a compaction; every token stays accounted for |
| `TokenLedger.Counters.NestedTokenUsage` | packages/cli/src/render.ts:1012-1018 | A subagent's usage counts for the task and the subagent total; every token stays accounted for |
| `TokenLedger.Counters.RequestEnds` | packages/cli/src/render.ts:836-850 | A normal request's end settles what was staged; every token stays accounted for |
| `TokenLedger.Counters.CompactionEnds` | packages/cli/src/render.ts:899-912 | A compaction's own line shows its own usage; every token stays accounted for |
| `TokenLedger.Counters.EndTask` | packages/cli/src/render.ts:1293-1318 | The line of stats shows the task's delta, and the counters start over; every token stays accounted for |
| `TokenLedger.Counters.EndCompact` | packages/cli/src/render.ts:1336-1345 | A manual compaction leaves nothing to the next task; every token stays accounted for |
| `BenchLog.UnsealedAfterScans` | scripts/activity-bench/bench.ts:446-468 | No hidden check of a block is unsealed before every pending trial of it is authored, is still on the record, and is then scanned clean with nothing authored after |
| `BenchLog.OwnTestsBeforeUnsealing` | scripts/activity-bench/bench.ts:530-536 | In each attempt at scoring the agent's own tests run before the hidden checks are unsealed |
| `BenchLog.OwnTestsAfterUnsealing` | scripts/activity-bench/bench.ts:514-536 | In a block a trial's own tests run after its unsealing only in a second attempt, after a machinery fault |
| `BenchLog.OwnTestsRunAgain` | scripts/activity-bench/bench.ts:514-580 | Whatever the world answers, a trial's own tests run after its hidden checks are unsealed if and only if the first attempt unsealed them and faulted, and the second session has own tests |
| `BenchLog.PromiseFails` | scripts/activity-bench/bench.ts:533-535 | A run of the loop in which they do |
| `BenchLog.CaseUnsealedBefore` | scripts/activity-bench/bench.ts:466-468 | The trial that is scored first unseals the case's hidden checks before the own tests of the other side run |
| `BenchLog.AttemptsAreRetries` | scripts/activity-bench/bench.ts:514-527 | A second attempt at a trial in a block comes only after the first one faulted |
| `BenchLog.NoThirdAttempt` | scripts/activity-bench/bench.ts:514-527 | And there is no third |
| `BenchLog.ScoringIsOrderly` | scripts/activity-bench/bench.ts:514-580 | Every scoring, whatever faults, fails or dies, keeps the rules the events of an evaluation keep |
| `BenchLog.ScoredOnce` | scripts/activity-bench/bench.ts:434-471 | Over all processes and resumes no trial is scored twice, if each read back what was reached |
| `BenchLog.LostScoreIsScoredAgain` | scripts/activity-bench/bench.ts:329-335 | When a write failed and the next process did not read the score back, a trial can be scored twice: a run in which it is |
| `BenchLog.SpentIsCharged` | scripts/activity-bench/bench.ts:450-450 | The money on the record is all that was ever charged, over all resumes |
| `BenchLog.PaidAt` | scripts/activity-bench/bench.ts:446-452 | A scanned trial was authored, in this process or one before, and is still on the record |
| `Bench.Campaign` | scripts/activity-bench/bench.ts:329-490 | Any chain of processes, each killed, stopped, failed or done anywhere: no trial is scored twice or forgotten, the record shows all that was charged, spending that began under the cap stays there if no trial costs more than expected, and a void stays; unless a process began after a failed write |
| `Bench.RecordIsTrue` | scripts/activity-bench/bench.ts:434-471 | A record that follows its events names no trial scored twice, and all that was charged |
| `Bench.Evaluation.Evaluate` | scripts/activity-bench/bench.ts:329-490 | One process, from what is on disk: a voided evaluation is not run again; spending that began under the cap stays there if no trial costs more than expected; what was scored stays scored; done means everything is scored and on disk; a stopped run leaves no begun, unscored held-out trial on the record unless its discard failed; the file agrees with the record unless its last write failed; and it ends otherwise than done only for a full cap, changed cases, a tripwire hit, a second fault, an error, a failed write or its death |
| `Bench.Evaluation.RunAll` | scripts/activity-bench/bench.ts:428-474 | The loop over the blocks keeps record and file in agreement, the budget and the order of events; it stops over the budget only where a block would pass the cap |
| `Bench.Evaluation.RunBlock` | scripts/activity-bench/bench.ts:428-473 | One block: budget, authoring, scanning, scoring; done means both its trials are scored, and each other end has its cause |
| `Bench.Evaluation.AuthorAll` | scripts/activity-bench/bench.ts:446-452 | Every unpaid trial is authored and charged, within the room the block's estimate left |
| `Bench.Evaluation.Pay` | scripts/activity-bench/bench.ts:449-451 | A trial is recorded, charged its cost or the estimate, and saved |
| `Bench.Evaluation.ScanAll` | scripts/activity-bench/bench.ts:453-465 | Every pending trial is scanned; a hit voids the evaluation, on disk too, and stops it before anything is scored |
| `Bench.Evaluation.Score` | scripts/activity-bench/bench.ts:530-580 | For every answer of the world, the events of the attempt, in order, and how it ends |
| `Bench.Evaluation.RetriedScore` | scripts/activity-bench/bench.ts:514-527 | At most two attempts, the second only after a fault; it stops the evaluation if and only if both faulted |
| `Bench.Evaluation.ScoreAll` | scripts/activity-bench/bench.ts:466-473 | Every pending trial is scored once; a held-out one is discarded after |
| `Bench.Evaluation.RecordScore` | scripts/activity-bench/bench.ts:469-471 | A trial's record takes the place of what was kept to score it, in one save |
| `Bench.Evaluation.Cleanup` | scripts/activity-bench/bench.ts:475-487 | After any abnormal exit every begun held-out trial is scored, off the record, or its discard failed |
| `Bench.Evaluation.Resume` | scripts/activity-bench/bench.ts:329-335 | A new process starts from the last saved state, which is always consistent, and forgets nothing unless a write failed |
| `Bench.Evaluation.Save` | scripts/activity-bench/bench.ts:381-385 | A write may fail; the file holds the new state or the old one, never a mixture |
| `Bench.RecordKeeps` | scripts/activity-bench/bench.ts:469-470 | Authored and scored trials stay disjoint, and exactly one more trial is scored |
| `Stats.WeightedMeanWithin` | scripts/activity-bench/stats.ts:43-46 | With positive weights a weighted mean lies between the values |
| `Stats.MeanWithin` | scripts/activity-bench/stats.ts:34-36 | A mean lies between the values |
| `Stats.WeightedMeanBalances` | scripts/activity-bench/stats.ts:43-46 | A weighted mean is where the weighted deviations balance, and nowhere else |
| `Stats.RoundsWithin` | scripts/activity-bench/stats.ts:137-140 | Rounding keeps order, so a rounded value lies in the rounded hull |
| `Stats.RoundIsNear` | scripts/activity-bench/stats.ts:137-140 | A rounded value is a whole number of hundredths, no further off than half of one |
| `Stats.Sort` | scripts/activity-bench/stats.ts:74-74 | The sorted samples are ascending and the same samples |
| `Stats.Resample` | scripts/activity-bench/stats.ts:66-69 | A resampled case's value is the mean of as many of its differences as it has, drawn with repetition, and lies in their hull |
| `Stats.Sample` | scripts/activity-bench/stats.ts:63-73 | A bootstrap sample is the weighted mean of as many such cases as there are, and lies in the hull |
| `Stats.PairedBootstrap` | scripts/activity-bench/stats.ts:49-77 | Whatever is picked, the estimate is the weighted mean, the interval is ordered, is made of the 501st and 9501st of ten thousand such samples, and all lie in the rounded hull of the differences |
| `Stats.MinDetectableIs` | scripts/activity-bench/stats.ts:95-102 | The smallest change that counts is twice the standard error of the mean difference, rounded, or two points where that is more |
| `Stats.Verdict` | scripts/activity-bench/stats.ts:108-130 | Worse exactly when an interval lies below nothing; better exactly when none does, the dev interval lies above nothing, its rise counts, the held-out mean does not fall by as much, and no guardrail got worse; and so by the differences alone when those of a kind all fall, or only rise |
| `Stats.Worsened` | scripts/activity-bench/stats.ts:132-135 | A guardrail got worse exactly when its interval lies above nothing |

## Left out

- Bytes and decoding: chunks are decoded text; UTF-8 sequences cut between chunks are the decoder's.
- Aborting a reader or stopping it early; the readers are read to the end of the body.
- `SseData`: an event that a caller does not take; the model lists all that are yielded.
- SessionStreams: the server's side is the replay of its log after an id, with pings and unnumbered frames;
  a replay that the server no longer holds (`resync_required`) and how its framework writes SSE are not
  part of this model, and a first subscription may start at any place of the log.
- `SessionStreams.SessionStream.Next`: the wait between two attempts takes no time.
- `A2uiStream`: `toFallbackMarkdown` is any function of the block's source.
- `PasteFilter`: there is no flush, so at the end of input the held text stays held, as in the code.
- `OutputCollapse.Collapse`: a tail of zero lines is left to `EachLineOnce`; colours and wording.
- `ToolRender.PreviewExtends`: `exec_command` and `run_subagent` only; previews of other tools. `JsonTexts`
  discharges its condition on what parses, up to the end of the object: white space that arrives after
  the whole object has been shown is not followed further.
- `JsonTexts`: the grammar lets more pass as numbers and literal names than RFC 8259 does.
- `Canonical`: big integers, which `JSON.stringify` refuses; a number stands for the text it prints as.
  Hashing, key derivation and encryption.
- `TabSet`: which group belongs to which server is a race with Chrome; `groups` is modelled, but only its
  storage is claimed. Window lists and counts.
- `Debugging`: relaying of events and refused methods; the `relayed` list. A tab that closed while being
  debugged is out of the claims from then on. Chrome's own detach and the event about it are one step, and
  session records are values in a list rather than shared objects.
- `Connection`: close codes and reasons in the published state, logging, and callbacks that call the link
  back while it publishes a state. The runs of the theorems hold no start that doubles what is under way
  (`StartingSafe`). The clock does not run backwards.
- `ScreenLock`: approval lines, their adjacency and deduplication; what a message looks like. Rendering does
  not call the renderer back.
- `TokenLedger`: context sizes, elapsed time and how numbers are abbreviated.
- `Bench`: preflight, the first estimate and file locks; a recorded verdict that is returned as it is; a state
  file that cannot be read. The scan of traces and the checks' results are answers of the world; trial ids
  are the facts they are made of. A kill during the cleanup may leave a discarded trial on file.
- `Stats`: floating-point rounding; the seeded generator may pick anything. The noise, and how many
  guardrails got worse, enter as values.
- Server-side code, discovery, pairing, policy and path checks, tables, dialogs and translations: mostly
  input and output, or settled by reading one branch.
