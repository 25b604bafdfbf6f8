# Verified models of the terminal UI, the agent loop and the harness store

Dafny models of the parts of the repository whose correctness spans several functions or a whole run,
with proofs for all inputs, all runs and all interleavings.

- `Terminal.dfy`, `InlineRenderer.dfy`: the inline differential renderer against a terminal that is a tape
  of rows (scrollback and screen) with a cursor. A differential update is shown to leave what a full
  repaint of the frame would, through resizes, forced and viewport-preserving renders and fullscreen
  excursions.
- `FullscreenViewport.dfy`, `SelectionRegions.dfy`: the alternate-screen row diff and scroll state, and the
  in-place interval subtraction behind overlay selection.
- `AnsiScanner.dfy`, `StyleTracker.dfy`, `TextLayout.dfy`, `TextWrap.dfy`: the escape-sequence scanner with its
  backward-built cache, the style tracker whose printer its parser undoes, and word wrapping that keeps styled
  text, leaves out nothing but white space at line ends, and ends a line only where the next word does not fit. The
  grammar is that of control sequences and control strings in sections 5.4 and 5.6 of ECMA-48 and of SGR in
  section 8.3.117; ending OSC and APC with BEL is the code's extension.
- `TableMarkers.dfy`: marking table cells in rendered lines and taking the markers out again.
- `Substrings.dfy`, `StdinBuffer.dfy`, `StdinGrammar.dfy`: the streaming input parser, exactly when its events do
  not depend on how the input is cut into chunks, and the sequences it tells apart, spelled out.
- `AgentMessages.dfy`, `AgentQueue.dfy`, `AgentLog.dfy`, `AgentLoop.dfy`: the agent loop, its tool executors,
  the message queues and the run lifecycle, under any behaviour of the environment and an abort at any wait. A log of events is
  kept as ghost state, with the polls of the queues and what each poll took and left; one protocol
  (`AgentLog.Allowed`) says which event may follow which, and every method keeps the log within it. The outcome of
  each tool call is traced to the answers heard between the call's start and its end.
- `HarnessStore.dfy`, `HarnessProtocol.dfy`: the persistent harness state, its document format, and several
  processes whose steps interleave on one file.

Findings about the code itself, each with a proof at an input and the exact condition:

- An empty frame after a frame that fits the screen and starts with a non-empty line leaves that line on the
  first row (`InlineRenderer.StaleTopRow`). `InlineRenderer.LeavesStaleTop` is the condition, on the state
  before the render; `DoRender` states that it is the only case.
- When a shrinking frame's cursor marker lies above the tracked viewport and nothing calls for a full redraw,
  the real cursor ends on the first row instead (`InlineRenderer.UnreachableMarker`).
  `InlineRenderer.PlacesCursor` is the condition, again on the state before the render.
- When a frame is drawn after a resize, and the screen has the recorded size again, the inline renderer and the
  fullscreen view do not notice that the rows may have changed (`InlineRenderer.UnnoticedResize`,
  `FullscreenViewport.UnnoticedResize`). For the inline renderer this includes a resize before any size is
  recorded; the fullscreen view is safe while it remembers no frame. The runs of both stop exactly at such a frame,
  not at the resize, for a forced render, a reset or another resize may come in between.
- An escape sequence that is unfinished when a bracketed paste starts can swallow the start of the paste
  marker, depending on where the input is cut (`StdinBuffer.EscapeBeforePaste`; `StdinBuffer.ChunkIndependence`
  gives the exact condition).
- A harness save that fails for another reason than a changed digest leaves its change in memory, and the
  next save of the process publishes it (`HarnessProtocol.FailedSaveLeaks`). Exactly the unsaved writes and the
  save's own are published, on the content that is replaced (`HarnessProtocol.NoLostUpdate`).
- A harness `update` with an empty id passes the existence check and then writes under the title's slug
  (`HarnessStore.EmptyIdUpdatesElsewhere`; `HarnessStore.UpdateWritesItsEntry` gives the exact condition).

The comment on `setClearOnShrink` calls it on by default; the field starts off unless the environment turns it on.
The renderer is modelled with either.

The comment on `wrapTextWithAnsi` promises lines within the width for every text. That is proved for cells one
to `width` wide and no white space but the plain space; nothing is proved about the width of lines otherwise.

## Model

| member | source | states |
|---|---|---|
| InlineRenderer.Tui.PositionHardwareCursor | packages/tui/src/tui.ts:1901-1932 | the cursor moves by the row difference, clamped to the frame, and to the marker's column, and no row changes; without a marker nothing moves |
| InlineRenderer.RepaintBuffer | packages/tui/src/tui.ts:1525-1562 | the viewport-preserving repaint shows the frame's last window and leaves scrollback untouched |
| InlineRenderer.PrintBuffer | packages/tui/src/tui.ts:1581-1591 | printing a frame on a blank screen shows its last window; what scrolls out is exactly the frame's head |
| InlineRenderer.FindChanges | packages/tui/src/tui.ts:1651-1676 | the lines outside the found range are unchanged, and the range starts at a change or at an append |
| InlineRenderer.DeletedLinesBuffer | packages/tui/src/tui.ts:1698-1718 | when only a tail went away every row shows the new frame, except that an emptied frame is shown as its old first line |
| InlineRenderer.ApproachBuffer | packages/tui/src/tui.ts:1761-1784 | the approach to the first changed line ends on its row, and scrolls only for an append past the bottom |
| InlineRenderer.DiffBuffer | packages/tui/src/tui.ts:1757-1842 | rewriting only the changed rows shows the whole new frame, moves the viewport exactly as far down as the frame outgrows it, and adds to scrollback just the lines that scroll out |
| InlineRenderer.RenderAndRepaint | packages/tui/src/tui.ts:1516-1894 | an inline render beside a clear and full repaint of the same frame: unless it leaves a stale top row it shows the same rows, moved up by exactly what the frame has shrunk below the tracked viewport (not at all after a redraw, nor with clear-on-shrink and no overlay), with the cursor on the same line and column exactly when it can be placed |
| InlineRenderer.Tui.RenderDifference | packages/tui/src/tui.ts:1651-1894 | the differential paths show the new frame exactly unless it is emptied over a non-empty top line; a full redraw happens exactly when a change lies out of reach; otherwise the viewport moves exactly as far as the frame outgrows it, scrollback grows by exactly the lines scrolled out, the cursor is placed exactly when its marker is not above the old viewport, and the working area is the greater of the old one and the frame |
| InlineRenderer.Tui.RenderInline | packages/tui/src/tui.ts:1483-1894 | the same for every path of a render, in terms of the state before it: when it redraws, when the screen is right and what it shows when not, when the cursor is right, where the viewport is, what scrollback becomes, and how large the working area is; with clear-on-shrink and no overlay the viewport is that of a full repaint; an unchanged frame leaves the rows as they are even when they are wrong |
| InlineRenderer.Tui.DoRender | packages/tui/src/tui.ts:1476-1894 | nothing changes once stopped or in fullscreen; otherwise the screen shows the frame if and only if it leaves no stale top row, the cursor is right if and only if it can be placed, both conditions on the state before, and then the invariant is kept; with clear-on-shrink and no overlay the screen is the frame's last window |
| InlineRenderer.Tui.RenderSameSize | packages/tui/src/tui.ts:1643-1894 | over a frame of the same size a render redraws exactly when the frame is shorter than the working area and is to be cleared then, or a change lies out of reach |
| InlineRenderer.Tui.SettledInSync | packages/tui/src/tui.ts:1483-1894 | a settled frame that is shown with its cursor placed is what the next render relies on |
| InlineRenderer.Tui.RequestRender | packages/tui/src/tui.ts:625-648 | a forced render keeps the last frame and makes the next one a full redraw, whatever the screen shows |
| InlineRenderer.Tui.EnterFullscreen | packages/tui/src/tui.ts:674-697 | entering sets the inline state aside unchanged |
| InlineRenderer.Tui.ExitFullscreen | packages/tui/src/tui.ts:703-724 | leaving resumes the differ against the entry state, and a flushing exit renders as any inline render does |
| InlineRenderer.Tui.Run | packages/tui/src/tui.ts:1476-1894 | after every step of any run of frames, forced and preserving renders, fullscreen excursions, resizes and changes of clear-on-shrink the screen shows the last frame with the cursor on its marker's row and column, and with clear-on-shrink and no overlay exactly the frame's last window; a run stops only before a frame that the differ cannot follow in the state there: a stale row, an unreachable marker, or a resize since the last inline frame with the recorded size back |
| InlineRenderer.Tui.Transcript | packages/tui/src/tui.ts:1651-1731 | while nothing above the viewport changes, scrollback and screen together are the whole transcript, blanks below it |
| InlineRenderer.UnreachableMarker | packages/tui/src/tui.ts:1687-1731 | three lines on two rows and then the first two with the marker on the first: the frame is shown, and the real cursor is on the row of the second line |
| InlineRenderer.StaleTopRow | packages/tui/src/tui.ts:1698-1718 | one line and then the empty frame: the screen still shows the line |
| InlineRenderer.UnnoticedResize | packages/tui/src/tui.ts:1483-1731 | two resizes there and back that blank the screen, and the same frame again: it is not shown |
| FullscreenViewport.Viewport.ComposeFrame | packages/tui/src/fullscreen.ts:99-133 | the frame has exactly `height` lines, the window over the dock's bottom lines, with the scroll position in bounds |
| FullscreenViewport.AppendKeepsWindow | packages/tui/src/fullscreen.ts:114-118 | while not following, a full window keeps its lines when the transcript grows |
| FullscreenViewport.Viewport.Paint | packages/tui/src/fullscreen.ts:629-662 | a paint writes exactly the rows whose line differs from the last frame's, or all after a noticed resize or a reset, with the frame's bottom lines cut to the width; the other rows stay; the cursor goes to its row and column |
| FullscreenViewport.Viewport.PaintInStep | packages/tui/src/fullscreen.ts:629-662 | from a screen in step every row then shows the frame's bottom lines cut to the width, and stays in step |
| FullscreenViewport.Viewport.Run | packages/tui/src/fullscreen.ts:629-667 | in any run of paints, resets and resizes every paint leaves the rows showing its frame; the run stops exactly at a paint after a resize with a frame remembered and its size back |
| FullscreenViewport.UnnoticedResize | packages/tui/src/fullscreen.ts:642-648 | a paint, two resizes there and back that blank the screen, and the same paint: the frame is not shown |
| FullscreenViewport.Viewport.Reset | packages/tui/src/fullscreen.ts:665-667 | the remembered frame is emptied, so that the next paint repaints everything |
| FullscreenViewport.Viewport.ScrollBy | packages/tui/src/fullscreen.ts:670-674 | scrolling stays in bounds and follows exactly at the bottom |
| FullscreenViewport.Viewport.ScrollToTop | packages/tui/src/fullscreen.ts:676-679 | the top, following only when there is nothing to scroll |
| FullscreenViewport.Viewport.ScrollToBottom | packages/tui/src/fullscreen.ts:681-684 | the bottom, following |
| SelectionRegions.OverlaySelection.SubtractSelectionCoverage | packages/tui/src/tui.ts:1260-1282 | the backward in-place splicing computes the region-wise subtraction |
| SelectionRegions.SubtractCells | packages/tui/src/tui.ts:1260-1282 | the subtraction covers exactly the old cells outside the cover |
| SelectionRegions.SubtractDisjoint | packages/tui/src/tui.ts:1260-1282 | and keeps the regions pairwise disjoint |
| SelectionRegions.OverlaySelection.CompositeOverlays | packages/tui/src/tui.ts:1220-1237 | after any stack of overlay rows the regions are disjoint and a cell is selectable exactly through the topmost row over it |
| AnsiScanner.ControlEndIsNearest | packages/tui/src/utils.ts:373-395 | the forward search ends at the nearer of the next BEL, where allowed, and the next string terminator |
| AnsiScanner.IntroducedEnd | packages/tui/src/utils.ts:346-371 | the end computed backwards from the nearest terminators is the one the forward scan finds |
| AnsiScanner.Scanner.CacheControlStringEnds | packages/tui/src/utils.ts:346-371 | one backward pass caches the right end of every control string, in linear work |
| AnsiScanner.Scanner.ExtractControlStringEnd | packages/tui/src/utils.ts:373-395 | cached or searched, the answer is that of the stateless search; a failed search is paid for once |
| AnsiScanner.Scanner.At | packages/tui/src/utils.ts:397-441 | the stateful extractor agrees with the stateless one at any position |
| AnsiScanner.Scanner.Queries | packages/tui/src/utils.ts:444-452 | any queries in any order get the stateless answers |
| AnsiScanner.Scanner.Scan | packages/tui/src/utils.ts:720-732 | a left-to-right scan finds the text's pieces and inspects at most eight code units per unit of text |
| AnsiScanner.EndAtLocal | packages/tui/src/utils.ts:397-436 | whether a sequence is complete depends on its own characters only |
| AnsiScanner.ControlSequence | packages/tui/src/utils.ts:402-423 | any parameter bytes, private ones included, then any intermediate bytes and a final byte are one complete sequence, whatever follows |
| AnsiScanner.ControlString | packages/tui/src/utils.ts:425-433 | an OSC, APC, DCS, PM or SOS is complete with its first string terminator, an OSC or APC with its first BEL, too, whatever follows |
| AnsiScanner.PiecesAreCodes | packages/tui/src/utils.ts:720-732 | every sequence a scan finds is complete by itself |
| StyleTracker.AnsiCodeTracker.Process | packages/tui/src/utils.ts:512-644 | one sequence changes the tracker's state as its SGR parameters or OSC 8 link say |
| StyleTracker.AnsiCodeTracker.SetParameters | packages/tui/src/utils.ts:512-644 | the parameter loop, with its skips over extended colours, applies the parameters in order |
| StyleTracker.AnsiCodeTracker.GetActiveCodes | packages/tui/src/utils.ts:666-684 | the printed codes are those of the state |
| StyleTracker.AnsiCodeTracker.UpdateFromText | packages/tui/src/utils.ts:720-732 | the tracker has read every complete sequence of a text in order |
| StyleTracker.SgrRoundTrip | packages/tui/src/utils.ts:666-684 | from a cleared style the printed attributes and colours are read back, extended colours included |
| StyleTracker.LinkParses | packages/tui/src/utils.ts:467-493 | a printed hyperlink is parsed back with its terminator |
| StyleTracker.PrintThenRead | packages/tui/src/utils.ts:666-732 | for every reachable state, reading what it prints from a cleared tracker gives the state back |
| StyleTracker.ProcessKeepsReachable | packages/tui/src/utils.ts:512-644 | every complete sequence keeps the state among those the round trip covers |
| StyleTracker.OnCodes | packages/tui/src/utils.ts:576-599 | each code from 1 to 9 that turns an attribute on turns on just that one and leaves the rest of the style |
| StyleTracker.StandardColors | packages/tui/src/utils.ts:631-639 | 30 to 37 and 90 to 97 set the colour in front, 40 to 47 and 100 to 107 the one behind, and nothing else |
| StyleTracker.ExtendedColors | packages/tui/src/utils.ts:545-567 | 38 or 48 with 5 and a number, or with 2 and three, sets the colour in front or behind to just these parameters |
| StyleTracker.OffCodes | packages/tui/src/utils.ts:600-624 | each code from 21 to 29 that turns something off turns off just its attribute, 22 both bold and dim, and leaves the rest of the style |
| StyleTracker.DefaultCodes | packages/tui/src/utils.ts:532-630 | 39 and 49 bring back the default colours; zero or no parameter resets everything but the hyperlink |
| StyleTracker.TextRoundTrip | packages/tui/src/utils.ts:666-732 | the state after any text at all is reachable and survives printing and reading |
| StyleTracker.LineEndResets | packages/tui/src/utils.ts:708-718 | the line-end reset turns the underline off, closes the link, and leaves the rest |
| TextWrap.SplitIntoTokens | packages/tui/src/utils.ts:737-784 | the tokens make up the text, and runs of spaces and of words alternate |
| TextWrap.BreakLongWord | packages/tui/src/utils.ts:946-1014 | the broken lines show the word's graphemes in their styles, the tracker has read it, and fitting cells give fitting lines; the lines are the word's cells, cut exactly where the next one does not fit |
| TextWrap.WrapSingleLine | packages/tui/src/utils.ts:819-896 | each line read from a cleared style shows its graphemes as the whole line does; every line but the last is closed; measured cells give lines within the width; the lines hold the input's cells, neighbours as neighbours, but for white space at line ends; a line ends only where the next word does not fit, and within a word only if that fills the line alone and its next cell does not fit |
| TextWrap.WrapText | packages/tui/src/utils.ts:797-817 | the same across literal newlines: the graphemes in their styles, the width, and the layout of each input line |
| TextLayout.NeighboursStay | packages/tui/src/utils.ts:833-896 | the cells of a wrapped line are those of the input from the line's start on, one after the other |
| TextLayout.OnlyBlanksLeftOut | packages/tui/src/utils.ts:866-896 | the cells between a line's end and the next line's start are white space |
| TextLayout.BrokenWordIsWide | packages/tui/src/utils.ts:843-864 | a word with a line break in it is wider than the width |
| TextLayout.LayBreak | packages/tui/src/utils.ts:866-881 | ending a line whose cells and the next token are together too wide, before the token or, if that is white space, after it, is a break that was due |
| TextLayout.LayWord | packages/tui/src/utils.ts:843-864 | so is ending a line before a word that is too wide for any, and cutting the word where its next cell does not fit |
| TextLayout.LayAppend | packages/tui/src/utils.ts:881-884 | a token that is appended stays next to what is before it |
| TextWrap.PrintedAsItems | packages/tui/src/utils.ts:666-718 | the items put at a line's start and end are what the tracker prints there |
| TextWrap.ActiveItemsRestore | packages/tui/src/utils.ts:797-817 | the codes put at a line's start bring a cleared style to the active one |
| TextWrap.AppendToken | packages/tui/src/utils.ts:860-884 | appending a token keeps the wrapping invariant; an overlong current line can only be a leading run of spaces |
| TableMarkers.MarkerRoundTrip | packages/tui/src/selection-metadata.ts:37-59 | a printed cell marker is parsed back |
| TableMarkers.CellMarkerIsCode | packages/tui/src/selection-metadata.ts:37-40 | a cell marker is one complete escape sequence and no table marker |
| TableMarkers.PiecesJoin | packages/tui/src/selection-metadata.ts:102-110 | text with complete sequences is scanned the same with anything behind it |
| TableMarkers.Extraction.TakeCode | packages/tui/src/selection-metadata.ts:112-165 | what each escape sequence of a line does to the text, the open cell and the tables |
| TableMarkers.Extraction.ExtractTableCellSelectionRegions | packages/tui/src/selection-metadata.ts:78-182 | the loops over lines and pieces, with their shortcuts, compute the fold over all pieces and the second pass |
| TableMarkers.NoMarkersKept | packages/tui/src/selection-metadata.ts:82-98 | lines without a marker prefix are what the loop would return for them |
| TableMarkers.ExtractionUndoesMarking | packages/tui/src/selection-metadata.ts:61-182 | extracting after marking gives the lines back, and one region per non-empty cell segment with place, bounds and first-segment content |
| StdinBuffer.ExtractCompleteSequences | packages/tui/src/stdin-buffer.ts:192-232 | the loop takes the shortest complete sequence off the front until none is left |
| StdinBuffer.ExtractConserves | packages/tui/src/stdin-buffer.ts:192-232 | the sequences and the remainder make up the buffer |
| StdinBuffer.ExtractSplits | packages/tui/src/stdin-buffer.ts:192-232 | extraction may stop anywhere and go on from its remainder |
| StdinBuffer.Absorbed | packages/tui/src/stdin-buffer.ts:29-79 | an unfinished control string or ESC [ < report stays unfinished over a partial paste marker |
| StdinBuffer.Finishes | packages/tui/src/stdin-buffer.ts:29-79 | any other unfinished sequence is finished by it, as an event of its own |
| StdinBuffer.InputBuffer.EmitDataSequence | packages/tui/src/stdin-buffer.ts:366-375 | one duplicate of an announced printable key is dropped, anything else is emitted |
| StdinBuffer.InputBuffer.Process | packages/tui/src/stdin-buffer.ts:264-364 | the state and events after a chunk are those of the specification, through any number of pastes in it |
| StdinBuffer.StaysSettled | packages/tui/src/stdin-buffer.ts:264-364 | between chunks the buffer is an unfinished sequence and no marker has been overlooked |
| StdinBuffer.Splits | packages/tui/src/stdin-buffer.ts:264-364 | two chunks do what their concatenation does, in state and events |
| StdinBuffer.ChunkIndependence | packages/tui/src/stdin-buffer.ts:264-375 | all splits of an input into non-empty chunks give the same events if and only if no sequence runs on into a paste-start marker |
| StdinBuffer.EscapeBeforePaste | packages/tui/src/stdin-buffer.ts:264-364 | an escape right before a paste marker: a split of that input gives other events than the whole |
| StdinGrammar.TakenWhole | packages/tui/src/stdin-buffer.ts:29-186 | a well-formed key, ESC and a character, SS3, CSI, mouse report, OSC, DCS or APC is taken off the input whole, whatever follows |
| StdinGrammar.HeldBack | packages/tui/src/stdin-buffer.ts:29-186 | while only a proper part of one is there, nothing is taken |
| StdinGrammar.TakesSequence | packages/tui/src/stdin-buffer.ts:29-232 | whatever is taken off is a well-formed sequence |
| StdinGrammar.ExtractsText | packages/tui/src/stdin-buffer.ts:192-232 | any well-formed sequences and the beginning of another are told apart as they were sent |
| StdinGrammar.ExtractsSequences | packages/tui/src/stdin-buffer.ts:192-232 | of any input, what is extracted is a list of well-formed sequences |
| StdinGrammar.EmitsSequences | packages/tui/src/stdin-buffer.ts:264-364 | an idle buffer that gets well-formed sequences emits each at once and holds back only an unfinished one |
| StdinGrammar.Announces | packages/tui/src/stdin-buffer.ts:184-190 | a printable key's report, with shifted and base codes or without, announces the key's character |
| StdinGrammar.SentTwice | packages/tui/src/stdin-buffer.ts:264-375 | the report of a key and then the key itself are one event |
| StdinGrammar.Pastes | packages/tui/src/stdin-buffer.ts:264-364 | what comes between the paste markers is one event after those of what was typed before it |
| AgentLog.CallsInOrder | packages/agent/src/agent-loop.ts:690-749 | in a log that follows the protocol each call's events are start, updates, end, with nothing after the end |
| AgentLog.TurnEndClosesCalls | packages/agent/src/agent.ts:580-592 | at every turn_end all calls have ended and no call id is pending, and the next turn's calls begin afresh |
| AgentLog.TurnsAlternate | packages/agent/src/agent-loop.ts:261-373 | in a log that follows the protocol turns start and end in turn, beginning with a start; a response ends only within one |
| AgentLog.AgentEndIsLast | packages/agent/src/agent-loop.ts:307-461 | there is at most one agent_end and it is the last event |
| AgentLog.EndsAreEnds | packages/agent/src/agent.ts:575-578 | the protocol's transcript is the payloads of message_end in order |
| AgentLog.StartsMatchEnds | packages/agent/src/agent-loop.ts:467-603 | message_start events are as many as message_end events, plus the superfluous ones, plus the open one |
| AgentLog.TurnEndAnswers | packages/agent/src/agent-loop.ts:347-373 | in a log that follows the protocol each turn_end has one result for each call of its reply, in order, or for the first ones after an abort; none if the reply failed |
| AgentLog.FinishedSays | packages/agent/src/agent-loop.ts:961-981 | what the protocol says became of a call is what its last end announced, with no turn ended since |
| AgentLog.ResultsFinished | packages/agent/src/agent-loop.ts:347-373 | in a log that follows the protocol each result of a turn_end carries what became of its call |
| AgentLog.PollsInOrder | packages/agent/src/agent-loop.ts:401-457 | follow-ups are polled right after the steering queue was found empty; continuation messages come only right after both queues were |
| AgentLog.EndsForAReason | packages/agent/src/agent-loop.ts:350-461 | right before agent_end the run was aborted or asked to stop, or its reply or the run failed, or both queues were found empty and the continuation hook gave nothing |
| AgentQueue.PendingMessageQueue.Enqueue | packages/agent/src/agent.ts:125-130 | a non-empty batch joins the back |
| AgentQueue.PendingMessageQueue.Drain | packages/agent/src/agent.ts:136-149 | whole batches leave the front, all of them or exactly the first, as the mode says, and what is left is the rest in order |
| AgentQueue.PendingMessageQueue.RemoveWhere | packages/agent/src/agent.ts:155-167 | every batch that is hit is removed whole, the others stay in order |
| AgentQueue.DrainsConcatenate | packages/agent/src/agent.ts:136-149 | repeated one-at-a-time drains concatenate to the drain of everything |
| AgentLoop.Agent.Emit | packages/agent/src/agent.ts:565-612 | an event is reduced into the agent's state, which stays the transcript plus the ended messages, before listeners run |
| AgentLoop.Agent.Await | packages/agent/src/agent.ts:284-292 | at every wait exactly the next answer is heard, and what it queues joins the back of the two queues as whole batches |
| AgentLoop.Agent.Race | packages/agent/src/agent-loop.ts:48-100 | an operation raced with the abort signal gives its value or error exactly unless an abort had come or comes first |
| AgentLoop.Agent.ReadResponse | packages/agent/src/agent-loop.ts:488-603 | reading the provider's stream returns after one finished message, which is the stream's result or the message of the event that ended it, or throws with the partial message it was last given still open |
| AgentLoop.Agent.StreamAssistantResponse | packages/agent/src/agent-loop.ts:467-603 | wherever an abort lands, a response that is returned is the provider's final message, or after an abort the aborted form of its last partial one; it has ended exactly one message, which is the context's last, after the whole earlier context, started once unless the provider starts again, and changed nothing else |
| AgentLoop.Agent.PrepareToolCall | packages/agent/src/agent-loop.ts:795-848 | a call is let run exactly if it is known and valid and the hook heard allows it; else its outcome is the refusal or the hook's error, or after an abort the abort's |
| AgentLoop.Agent.HearTool | packages/agent/src/agent-loop.ts:850-904 | a tool's answer is an update, or its settled value without error, or its thrown error; after an abort the abort's error |
| AgentLoop.Agent.FinalizeExecutedToolCall | packages/agent/src/agent-loop.ts:906-952 | the outcome is what the hook after the call puts in place, its error, or the executed one unchanged; after an abort the abort's |
| AgentLoop.Agent.EndCall | packages/agent/src/agent-loop.ts:961-969 | a call ends only with an outcome that answers heard since its start have given: one refused it, or one let it run, a later one is its tool's, and a later one its hook's; or with the abort's |
| AgentLoop.TurnsHeard | packages/agent/src/agent-loop.ts:795-981 | in such a log every result of every turn_end has the outcome of its call's end in that turn, given between the call's start and that end, or the abort's if the run was aborted by then |
| AgentLoop.Agent.ExecuteToolCallsSequential | packages/agent/src/agent-loop.ts:630-688 | one result for each call of a prefix of the calls, in order, with the outcome its end announced, which answers heard since its start have given, all of them unless aborted; no two calls run at once; tool work is left exactly if a call did not ask to terminate |
| AgentLoop.Agent.PrepareAll | packages/agent/src/agent-loop.ts:700-733 | calls start in source order and immediate outcomes end at once |
| AgentLoop.Agent.RunAll | packages/agent/src/agent-loop.ts:735-737 | for every interleaving of updates, ends and aborts every prepared call ends |
| AgentLoop.Agent.ExecuteToolCallsParallel | packages/agent/src/agent-loop.ts:690-749 | exactly one result per call, in source order, with the outcome its end announced, which answers heard since its start have given, after all ends |
| AgentLoop.Agent.ExecuteToolCalls | packages/agent/src/agent-loop.ts:608-623 | the calls take turns exactly if the agent or one of their tools asks for it; calls that need not have all ended before the first result |
| AgentLoop.Agent.Poll | packages/agent/src/agent-loop.ts:167-175 | unless aborted, a poll takes exactly the queue's drain and logs what it took and left; it comes back empty only if the queue was, or if it is the skipped initial one; follow-ups only after steering was found empty and without tool work |
| AgentLoop.Agent.DrainQueue | packages/agent/src/agent.ts:492-499 | the queue loses exactly its first batch or all of them, which are the messages polled and the batches logged, except for the one skipped initial steering poll |
| AgentLoop.Agent.InjectPending | packages/agent/src/agent-loop.ts:337-345 | pending messages are injected one by one, in order, so that everything drained is injected |
| AgentLoop.Agent.Turn | packages/agent/src/agent-loop.ts:328-373 | a turn starts only on messages or tool work, keeps context and new messages in step with the log, and says whether tool work is left |
| AgentLoop.Agent.RunTools | packages/agent/src/agent-loop.ts:356-371 | every call of the response has run and has its result, in order and with the outcome that was heard for it, all of them unless aborted |
| AgentLoop.Agent.AfterTurn | packages/agent/src/agent-loop.ts:374-419 | after a turn that is not aborted the run goes on, ends or throws exactly as the hooks' answers and the steering queue say; it goes on with the steering messages |
| AgentLoop.Agent.StopBeforeTurn | packages/agent/src/agent-loop.ts:320 | the run ends exactly if the hook's answer asks for it, throws exactly if it throws, and goes on unchanged otherwise |
| AgentLoop.Agent.EndRun | packages/agent/src/agent-loop.ts:350-461 | agent_end is emitted with every message of the run after at least one turn; a hook is given as the reason only if the answer just heard asks to stop |
| AgentLoop.Agent.FindMore | packages/agent/src/agent-loop.ts:422-457 | without tool work or steering, the run goes on, ends or throws exactly as the hooks' answers, the follow-up queue and the continuation messages say; continuations are asked for only after the follow-up queue was found empty |
| AgentLoop.Agent.RunLoop | packages/agent/src/agent-loop.ts:307-461 | every exit emits agent_end with exactly the messages ended in the run, or throws before it |
| AgentLoop.Agent.RunAgentLoop | packages/agent/src/agent-loop.ts:247-270 | the same with the prompts first |
| AgentLoop.Agent.RunAgentLoopContinue | packages/agent/src/agent-loop.ts:272-295 | the same from the transcript, which must not end with the assistant |
| AgentLoop.Agent.HandleRunFailure | packages/agent/src/agent.ts:529-548 | a failure, as an abort exactly if the run was aborted, becomes the run's last message, followed by agent_end |
| AgentLoop.Agent.RunPromptMessages | packages/agent/src/agent.ts:435-449 | for every environment: one agent_end, last, for a reason or after both queues were found empty, and after at least one turn; carrying all messages of the run or the failure that ended it; every call of every turn answered in order, short of an abort, with the outcome the answers heard between its start and its end gave, unless aborted by then; calls that take turns never at once; the agent idle after it; its transcript the old one plus the ended messages; context and new messages agree exactly unless the provider started twice; the batches queued before the run and by each answer heard have left whole and in order or are still queued |
| AgentLoop.Agent.RunContinuation | packages/agent/src/agent.ts:451-461 | the same for a continuation |
| AgentLoop.Agent.Conclude | packages/agent/src/agent.ts:520-556 | normal, aborted or failed, the run is concluded as those two promise |
| HarnessStore.RoundTrip | prime-agent-runtime/src/rlm/harness.py:382-396 | loading a saved store gives it back, in any scope and at any time |
| HarnessStore.EntryRoundTrip | prime-agent-runtime/src/rlm/harness.py:299-334 | the same for one entry through every validation |
| HarnessStore.RefinementRoundTrip | prime-agent-runtime/src/rlm/harness.py:337-359 | the same for one refinement event |
| HarnessStore.LoadedIsFiled | prime-agent-runtime/src/rlm/harness.py:290-335 | whatever a file holds, loaded entries are filed under their own id and kind |
| HarnessStore.EffectOnEntry | prime-agent-runtime/src/rlm/harness.py:470-526 | an operation touches its target only, and makes, updates or removes it; a new entry has the request's values or their defaults and both dates now; an updated one has the request's title, content and source, what the request gives of the rest and its own otherwise, its own creation date, and now as update date |
| HarnessStore.AppliedWhen | prime-agent-runtime/src/rlm/harness.py:426-562 | an operation with a name that resolves succeeds exactly when: a create finds the id free, an update finds the id it was given, a delete finds the entry and may remove it; an upsert always |
| HarnessStore.SavedCarries | prime-agent-runtime/src/rlm/harness.py:366-424 | the file a successful operation is saved to reads back with the written entry's values |
| HarnessStore.CreateIsFresh | prime-agent-runtime/src/rlm/harness.py:582-629 | a create that succeeds found its id free and makes version one with the request's values |
| HarnessStore.UpdateWritesItsEntry | prime-agent-runtime/src/rlm/harness.py:631-677 | an update that succeeds writes the next version of the entry it names, with the request's values and the old ones it omits, exactly when the name is not empty (or its slug is) |
| HarnessStore.EmptyIdUpdatesElsewhere | prime-agent-runtime/src/rlm/harness.py:631-677 | updating an entry filed under the empty id makes a new entry under the slug and leaves it alone |
| HarnessStore.HarnessState.SyncFromDisk | prime-agent-runtime/src/rlm/harness.py:261-269 | after a sync memory is what the file holds |
| HarnessStore.HarnessState.Load | prime-agent-runtime/src/rlm/harness.py:271-364 | memory, stamp and digest are those of the file |
| HarnessStore.HarnessState.Save | prime-agent-runtime/src/rlm/harness.py:382-424 | the file is replaced exactly when it still holds what was loaded, and is left alone otherwise |
| HarnessStore.HarnessState.Create | prime-agent-runtime/src/rlm/harness.py:582-629 | the operation's outcome on the file's content, in memory and in the file, which then reads back with the request's values |
| HarnessStore.HarnessState.Update | prime-agent-runtime/src/rlm/harness.py:631-677 | likewise, keeping what the caller omits |
| HarnessStore.HarnessState.Upsert | prime-agent-runtime/src/rlm/harness.py:426-468 | likewise |
| HarnessStore.HarnessState.Delete | prime-agent-runtime/src/rlm/harness.py:539-562 | likewise, refusing memory of an active evolution candidate |
| HarnessProtocol.RunKeeps | prime-agent-runtime/src/rlm/harness.py:261-424 | the invariant of every interleaving: memory past the sync is what the loaded digest says with the unsaved writes, and memory of an outdated load has an old stamp |
| HarnessProtocol.NoLostUpdate | prime-agent-runtime/src/rlm/harness.py:382-424 | in every run the successful saves form one chain, each replacing exactly what the one before left with its process's unsaved writes and then its own applied to just that; when saves fail only by a changed digest, nothing is left unsaved |
| HarnessProtocol.CreateNeverOverwrites | prime-agent-runtime/src/rlm/harness.py:582-629 | a saved create found its id free in the content it replaced and kept every other entry of every kind, and the refinements |
| HarnessProtocol.VersionsCountWrites | prime-agent-runtime/src/rlm/harness.py:507-510 | along the chain an entry's version counts the published writes to it |
| HarnessProtocol.FileVersion | prime-agent-runtime/src/rlm/harness.py:382-424 | in every run the file's version of an entry is what the writes published by its saves make of the first one |
| HarnessProtocol.VersionsAdd | prime-agent-runtime/src/rlm/harness.py:507-510 | without a delete the version has grown by the number of writes |
| HarnessProtocol.FailedSaveLeaks | prime-agent-runtime/src/rlm/harness.py:397-424 | a run in which a failed save's write is published by the next save, so that the new content is not that save's own write on what it replaced |

## Left out

- InlineRenderer.Tui.Run: says nothing about what comes after a frame that the differ cannot follow; nor does FullscreenViewport.Viewport.Run after a paint that cannot notice a resize.
- InlineRenderer.Tui.PositionHardwareCursor: the column is the marker's, before the terminal holds it at its right edge; text widths are not modelled, so elsewhere only the first column is known.
- InlineRenderer.Tui.RenderInline: frames are sequences of lines that fit the width; overlong lines stop the program, and Termux height handling, image lines and debug logs are platform branches.
- InlineRenderer.PrintBuffer: clearing the screen is taken to keep scrollback, as the code assumes; terminals that push the cleared screen into scrollback are not modelled, and the first render starts on a clean screen at home.
- FullscreenViewport.Viewport.Paint: highlighting of the selection and the cut of a line to the width are functions given to the model; what they show is not modelled.
- AnsiScanner.Scanner.Scan: characters are Unicode code points, where the program counts UTF-16 units; no escape sequence contains a surrogate.
- StyleTracker.AnsiCodeTracker.Process: numbers are unbounded, where the program's are doubles.
- TextWrap.WrapText: the text is given as complete escape sequences and cells with widths; grapheme segmentation, width tables and newlines inside an escape sequence are not modelled, and the width of a line is the sum of its cells.
- TextWrap.WrapText: the width bound is stated for cells one to `width` wide and no white space but the plain space; nothing is stated about the width of lines with zero-width cells or other white space.
- TableMarkers.MarkerRoundTrip: URI escaping of a cell's content is a codec given to the model, and marker numbers are decimal digits.
- StdinBuffer.InputBuffer.EmitDataSequence: characters are Unicode code points; the program emits a plain character beyond the basic plane as its two UTF-16 units, two events, and never drops it as a duplicate.
- StdinBuffer.InputBuffer.Process: timeout flushes and the conversion of a single high byte are not modelled, nor are empty chunks in the splits.
- AgentLoop.Agent.RunPromptMessages: a run is a finite script of the environment's answers; listeners do not throw, hooks do not change the context they are shown, and queues are added to but not cleared during a run.
- AgentLoop.Agent.StreamAssistantResponse: what transforms, key lookup and the provider call compute is an answer of the environment; a provider that starts a message twice is covered, and makes the context longer by exactly that message.
- AgentLoop.Agent.PrepareToolCall: looking a tool up, validating its arguments and asking whether to block it are one answer of the environment.
- AgentLoop.Agent.FinalizeExecutedToolCall: the hooks before and after a call are taken to be there, so an abort shows as theirs; a hook that replaces part of an outcome is one that gives the whole.
- AgentLoop.Agent.HearTool: the wait for a settled tool's update listeners is part of the wait for the tool.
- HarnessProtocol.NoLostUpdate: lock waiting and stealing, temporary files and permissions are not modelled; the lock is owned until released, a replace is atomic, every write has a fresh stamp, and equal digests mean equal contents.
- HarnessStore.RoundTrip: the order of keys in the document is not modelled, a boolean version is its number, and JSON text itself is parsed and printed outside the model.
- `Agent.continue`, `reset`, subscriptions and message normalisation: they choose between runs and add no protocol of their own.
- The global store's delegation, scope prefixes of ids, the refusal of unverified memory writes, skill references and `list`: policy in front of the modelled operations.
- Focus and overlay layout, keys, mouse handling, images, autocomplete, the editor, model catalogues and the command line: no state machine or transformation shared with the modelled parts.
