# A model of the real-time transcription pipeline

This project models the core of a real-time transcription system in Dafny and proves
properties of the model. A transcription tool writes speech segments to JSON files.
Five Python components turn those segments into research notes:

- **Transcript monitor** (`transcript_monitor.py`). It finds the newest
  `session_*` directory and its first `transcript_chunks_*.json` file. It keeps the
  records newer than a persisted watermark and hands them downstream in batches of at
  most 50. The watermark advances only when a hand-off succeeds.
- **Note generator** (`note_generator.py`). It collects incoming segments and processes
  them once at least five have arrived or thirty seconds have passed. It asks the AI
  for notes at the configured depth, or writes demo notes when no API key is set, and
  queues and logs the result.
- **UI manager** (`ui_manager.py`). It keeps bounded buffers of notes (10), status
  records (20) and transcript segments (50). It handles the `cleanup_memory`,
  `refresh` and `show_notes` commands, and renders text views to tmux panes or to
  standard output.
- **Single-process monitor** (`rt_transcribe.py`). Each cycle, it reads the
  newest transcript and filters by the watermark. It sorts by start, calls the AI and
  rejects replies marked `Error`/`Warning:`. Good notes are shown and logged, and the
  newest start is saved.
- **Coordinator** (`coordinator.py`). It loads the configuration and fills in the
  `architecture` defaults. It starts the three workers and runs health-check ticks:
  memory totals, status records, cleanup commands, and restarts of dead workers. On
  shutdown it sends SIGTERM to every worker and kills those that survive.

Each source file is one Dafny module:

| module | file |
|---|---|
| `Common` | `common.dfy` |
| `TranscriptMonitor` | `transcript_monitor.dfy` |
| `NoteGenerator` | `note_generator.dfy` |
| `UiManager` | `ui_manager.dfy` |
| `RtTranscribe` | `rt_transcribe.dfy` |
| `Coordinator` | `coordinator.dfy` |

`Common` holds the record types that travel over the queues and the Python string
helpers the workers rely on: `str.strip` with Python's whitespace set, slicing, `in`,
`str.replace`, code-point ordering, and the `deque(maxlen=…)` append rule.

Each worker class becomes a Dafny `class` whose fields are the Python object's
mutable state. Its methods update those fields, and its loops are `while` loops
proved against specification functions:

- `Poll`/`ScanItems` for the transcript monitor;
- `Concat`/`Arrivals` for the note generator;
- `LastN` for the UI buffers;
- `RecentSegments`/`Cycle` for the single-process monitor;
- `Start`/`Restart`/`RestartDead`/`TerminateAll`/`KillSurvivors` for the coordinator.

The world outside each worker is an explicit input:

- queue `put` outcomes;
- liveness of processes;
- memory and CPU samples;
- clock readings;
- ISO-8601 and float parsing;
- `strftime`;
- the AI call, either a reply or one of the client's exceptions.

Effects on the outside world are recorded as sequences: queued items, log entries,
process actions, and UI effects.

## Model

| member | source | states |
|---|---|---|
| Common.NotContainsWithoutFirstChar | rt_transcribe.py:388 | `sub in s` is false when no character of `s` is the first character of `sub` |
| Common.Take | note_generator.py:133-135 | `s[:n]` has length `min(n, len(s))` and is a prefix of `s` |
| Common.LastN | ui_manager.py:163 | `s[-n:]` has length `min(n, len(s))` and is a suffix of `s` |
| Common.LastNAppend | transcript_monitor.py:30 | trimming to the last `n` and then appending and trimming again equals trimming the whole once |
| Common.DequeAppend | transcript_monitor.py:160 | a bounded deque never holds more than `maxlen` items after an append |
| Common.DequeExtend | ui_manager.py:231 | a bounded deque never holds more than `maxlen` items after an extend |
| Common.DequeAppendIsLastN | transcript_monitor.py:30 | one append to a `deque(maxlen=cap)` keeps exactly the last `cap` items of old contents plus the new item |
| Common.DequeExtendIsLastN | ui_manager.py:228-231 | `extend` keeps exactly the last `cap` items of old contents followed by the new items |
| Common.LStrip | transcript_monitor.py:42 | the result is a suffix, everything removed is whitespace, and it does not start with whitespace |
| Common.RStrip | transcript_monitor.py:42 | the result is a prefix, everything removed is whitespace, and it does not end with whitespace |
| Common.StripKeepsFirst | rt_transcribe.py:168 | stripping a string that starts with a non-space character keeps that character first, so the result is not empty |
| Common.LinesAppend | note_generator.py:65-67 | the text built line by line for two lists is the concatenation of the two texts |
| Common.LineTexts | note_generator.py:133-135 | the lines of a text built line by line are one per item, in order, and joining them with newlines gives that text |
| Common.Lines | note_generator.py:62-69 | `text += f"...\n"` over a list: each item's line followed by a newline, in order (split by `LinesAppend`, itemised by `LineTexts`) |
| Common.Join | ui_manager.py:152 | `sep.join(parts)`: the parts in order with the separator between neighbours |
| Common.Strip | transcript_monitor.py:42 | `str.strip()` is `lstrip` then `rstrip` over Python's whitespace set (see `LStrip`, `RStrip`, `StripKeepsFirst`) |
| Common.Contains | rt_transcribe.py:388 | `sub in s`: `sub` is a prefix of `s` or of one of its suffixes (see `NotContainsWithoutFirstChar`) |
| Common.Replace | rt_transcribe.py:327-335 | `s.replace(c, r)` for a one-character pattern replaces every occurrence of `c`, left to right (see `ReplaceAppend`) |
| Common.LexLe | transcript_monitor.py:68 | Python's `<=` on strings: code-point order, a prefix first (a total order: `LexLeTotal`, `LexLeTrans`, `LexLeAntisymmetric`) |
| Common.IsSessionDir | transcript_monitor.py:60-63 | an entry is a session when it is a directory whose name starts with `session_` |
| Common.IsChunkFile | transcript_monitor.py:123-127 | a name matches `transcript_chunks_*.json` exactly when it starts with `transcript_chunks_` and ends with `.json` |
| Common.NatToString | note_generator.py:131 | `str(n)` of a natural number is a non-empty string of decimal digits |
| Common.DigitChar | note_generator.py:131 | each digit maps to a character between `0` and `9` |
| Common.ReplaceAppend | rt_transcribe.py:327-335 | `str.replace` of one character distributes over concatenation |
| Common.LexLeTotal | transcript_monitor.py:68 | the code-point order on names is total |
| Common.LexLeTrans | transcript_monitor.py:68 | the code-point order on names is transitive |
| Common.LexLeAntisymmetric | transcript_monitor.py:68 | the code-point order on names is antisymmetric |
| Common.MaxName | transcript_monitor.py:68 | `max(names)` is one of the names and no name is greater |
| Common.SessionNames | transcript_monitor.py:60-63 | a name is listed exactly when some directory entry with that name is a `session_*` directory |
| Common.LatestSession | transcript_monitor.py:56-68 | none when the root is not a directory or holds no session directory; otherwise a listed session directory that no other session directory exceeds |
| Common.FirstChunkFile | transcript_monitor.py:123-127 | none exactly when no file matches `transcript_chunks_*.json`; otherwise the first match in listing order |
| Common.Candidate | transcript_monitor.py:138-149 | a record gives a segment exactly when its timestamp is present, non-empty and parses and its text is present; the segment carries the parsed start, the text, the chunk id and the timestamp |
| TranscriptMonitor.BufferSize | transcript_monitor.py:29 | the ring buffer's size is the configured `transcript_buffer_size`, 100 when it is absent |
| TranscriptMonitor.LoadLastProcessedTime | transcript_monitor.py:38-47 | the watermark is 0.0 for a missing, unreadable or blank file or one that does not parse, and otherwise the parsed number |
| TranscriptMonitor.LocateTranscript | transcript_monitor.py:119-127 | a transcript is found exactly when there is a newest session holding a chunk file; it is in that session, matches the pattern, and is the first match in listing order |
| TranscriptMonitor.MaxStart | transcript_monitor.py:187 | the greatest start of a batch is the start of one of its segments and no start exceeds it |
| TranscriptMonitor.MaxStartAppend | transcript_monitor.py:187 | the greatest start after appending a segment is the larger of the old greatest start and the new start |
| TranscriptMonitor.Flushed | transcript_monitor.py:177-181 | the segments of the flushed batches, in flush order (see `FlushedAppend`) |
| TranscriptMonitor.GoodBatch | transcript_monitor.py:177-181 | a batch holds 1 to 50 segments and its `count` is their number |
| TranscriptMonitor.Inv | transcript_monitor.py:132-164 | between two records every pending segment is above the watermark, fewer than 50 are pending, every flushed batch is good, and flushed plus pending is the accepted segments (kept by `AcceptInv`, `FlushInv`, `OfferInv`, `StepInv`, `ScanItemsInv`) |
| TranscriptMonitor.Poll | transcript_monitor.py:118-171 | `process_new_segments` on a record list: the scan followed by the final flush, the remainder lost when the scan raises (see `PollProperties`, `PollWatermark`, `PollCovers`) |
| TranscriptMonitor.Reach | transcript_monitor.py:186-188 | the watermark a state reaches once its pending segments are delivered (see `StepReach`, `FlushReach`) |
| TranscriptMonitor.AllRecords | transcript_monitor.py:138-149 | every element of the list is a JSON object, so no field access raises (see `ScanCovers`, `PollCovers`) |
| TranscriptMonitor.Delivered | transcript_monitor.py:183-184 | every batch that reached the queue comes from a successful `put` |
| TranscriptMonitor.DeliveredAppend | transcript_monitor.py:183-184 | a further flush adds its batch to the queue exactly when its `put` succeeds |
| TranscriptMonitor.DeliveredEmpty | transcript_monitor.py:183-190 | nothing reached the queue exactly when every `put` failed |
| TranscriptMonitor.FlushedAppend | transcript_monitor.py:177-181 | the segments flushed after one more flush are the earlier ones followed by that batch's segments |
| TranscriptMonitor.Flush | transcript_monitor.py:173-195 | an empty pending list changes nothing; otherwise the list becomes a batch with the right count, pending is emptied, and the watermark moves to the batch's greatest start only when the `put` succeeds |
| TranscriptMonitor.Offer | transcript_monitor.py:151-164 | offering a segment keeps the ring buffer within its bound |
| TranscriptMonitor.Accept | transcript_monitor.py:159-160 | accepting a segment keeps the ring buffer within its bound |
| TranscriptMonitor.Step | transcript_monitor.py:138-164 | handling one record keeps the ring buffer within its bound |
| TranscriptMonitor.ScanItems | transcript_monitor.py:132-164 | a scan keeps the ring buffer within its bound |
| TranscriptMonitor.ExtendsRefl | transcript_monitor.py:132-167 | every poll state relates to itself under the poll-extension relation |
| TranscriptMonitor.RecentTrans | transcript_monitor.py:160 | the ring-buffer relation between poll states is transitive |
| TranscriptMonitor.UsesPutsTrans | transcript_monitor.py:184 | "new attempts used the next `put` outcomes" is transitive |
| TranscriptMonitor.WatermarkTrans | transcript_monitor.py:186-188 | "the watermark did not move back, and moved only on a successful `put`" is transitive |
| TranscriptMonitor.NewAboveTrans | transcript_monitor.py:151 | "newly accepted segments start above the earlier watermark" is transitive |
| TranscriptMonitor.ExtendsTrans | transcript_monitor.py:132-167 | the poll-extension relation is transitive |
| TranscriptMonitor.FlushAdvances | transcript_monitor.py:186-188 | a delivered flush of segments above the watermark moves it strictly forward; a failed one leaves it |
| TranscriptMonitor.AcceptInv | transcript_monitor.py:159-160 | accepting a segment above the watermark keeps every pending segment above it, at most 50 pending, every batch well formed, and flushed plus pending equal to accepted |
| TranscriptMonitor.FlushInv | transcript_monitor.py:173-190 | a flush of at most 50 pending segments empties pending and restores the poll invariant |
| TranscriptMonitor.OfferInv | transcript_monitor.py:151-164 | offering a segment keeps the poll invariant and adds it to the accepted segments exactly when it starts above the watermark |
| TranscriptMonitor.StepInv | transcript_monitor.py:138-164 | one record keeps the poll invariant and only extends the poll state |
| TranscriptMonitor.ScanItemsInv | transcript_monitor.py:132-164 | a scan keeps the poll invariant and only extends the poll state, raising or not |
| TranscriptMonitor.PollProperties | transcript_monitor.py:118-171 | after a poll that ends normally: pending is empty; the watermark never moves back and moves only if a batch was delivered; every batch holds 1 to 50 segments with a matching count; the flushed segments are exactly the accepted ones, all above the old watermark; the ring buffer is the last `cap` of old plus accepted |
| TranscriptMonitor.PollWatermark | transcript_monitor.py:118-171 | no poll, raising or not, moves the watermark back |
| TranscriptMonitor.StepReach | transcript_monitor.py:138-164 | with successful `put`s one record never lowers the reachable watermark and its candidate lies at or below it |
| TranscriptMonitor.ScanCovers | transcript_monitor.py:132-164 | with successful `put`s a scan of records does not raise and no candidate lies above the watermark it reaches |
| TranscriptMonitor.ScanNothing | transcript_monitor.py:132-164 | a scan from a watermark no candidate exceeds accepts nothing and changes nothing |
| TranscriptMonitor.PollCovers | transcript_monitor.py:118-171 | with successful `put`s a poll of records ends normally, delivers every batch, and leaves no candidate above the new watermark |
| TranscriptMonitor.FlushReach | transcript_monitor.py:186-188 | a delivered flush moves the watermark to the greatest pending start or keeps it if higher |
| TranscriptMonitor.RePollAcceptsNothing | transcript_monitor.py:118-171 | idempotence: after a fully delivered poll, polling the same records again from the new watermark accepts, flushes and changes nothing |
| TranscriptMonitor.Monitor.constructor | transcript_monitor.py:17-32 | the watermark is loaded, the buffer size configured, and the buffer and queue start empty |
| TranscriptMonitor.Monitor.FlushSegments | transcript_monitor.py:173-195 | a successful `put` queues the batch and moves the watermark, its file and the shared `last_processed` to the batch's greatest start; an empty list or a failed `put` changes nothing |
| TranscriptMonitor.Monitor.AcceptSegment | transcript_monitor.py:151-164 | the loop body for an accepted segment leaves the fields as `Offer` describes, flushing at 50 |
| TranscriptMonitor.Monitor.ProcessNewSegments | transcript_monitor.py:118-171 | no transcript changes nothing; otherwise the fields become the state `Poll` computes: watermark never back, queue grown by the delivered batches, file and shared state moved only on delivery, `total_segments` set only when the poll did not raise |
| TranscriptMonitor.Monitor.FinishPoll | transcript_monitor.py:166-167 | the final flush leaves the fields as `Flush` describes |
| TranscriptMonitor.Monitor.ScanRecords | transcript_monitor.py:132-164 | the record loop ends in the state and raise flag `ScanItems` computes, with the invariant kept |
| TranscriptMonitor.Monitor.CleanupMemory | transcript_monitor.py:197-200 | the ring buffer is emptied and the watermark, queue and shared state are untouched |
| NoteGenerator.PromptForDepth | note_generator.py:71-114 | `minimal`, `detailed` and `comprehensive` select their own prompts, and every other name the standard one |
| NoteGenerator.PromptForDepthRoundTrip | note_generator.py:71-114 | each depth is selected by its own name, and otherwise only the standard one is selected, by an unknown name |
| NoteGenerator.DemoMode | note_generator.py:34-43 | demo mode exactly when the API key is absent, empty or the placeholder (used by `Generator.constructor`) |
| NoteGenerator.ReceiveTimeout | note_generator.py:216 | the `get` timeout is the larger of 1 s and what is left of the 30 s since the last batch |
| NoteGenerator.FormatSegmentsForAi | note_generator.py:62-69 | one `[time] text` line per segment, in order (see `FormatSegmentsForAiStart`) |
| NoteGenerator.FormatSegmentsForAiStart | note_generator.py:62-69 | an empty batch formats to the empty text; a non-empty one starts with the first segment's `[time]` stamp |
| NoteGenerator.DemoNotes | note_generator.py:129-137 | demo notes start with the demo header and the depth line and end with the configuration hint |
| NoteGenerator.DemoLines | note_generator.py:133-135 | one line for each of the first (at most) three segments: its `[time]`, then its first 50 characters and `...` |
| NoteGenerator.DemoNoteLines | note_generator.py:129-135 | the lines between the demo header and hint: `Depth: <level>`, `Segments: <count of the whole batch>`, a rule of 40 dashes, then the demo lines of the first three segments |
| NoteGenerator.GenerateNotes | note_generator.py:116-166 | an empty batch gives no notes, and notes given are never empty |
| NoteGenerator.NotesLogEntry | note_generator.py:191-200 | a log entry starts with a blank line and the `=` rule and ends with the notes and the closing rule |
| NoteGenerator.LogOfEntries | note_generator.py:183-184 | the log holds one entry per queued record, with its notes and time stamp, in queue order |
| NoteGenerator.LogOfAppend | note_generator.py:183-184 | the log of two runs of queued records is the concatenation of their logs |
| NoteGenerator.GenerateNotesCases | note_generator.py:116-166 | for a non-empty batch: demo mode always gives the demo notes; otherwise the AI reply is the result exactly when the call returned and the reply is non-empty |
| NoteGenerator.ConcatAppend | note_generator.py:222 | the segments of the batches plus one more batch are the earlier segments followed by that batch |
| NoteGenerator.Concat | note_generator.py:222-245 | the segments of the processed batches, in processing order (see `ConcatAppend`, `HandOver`) |
| NoteGenerator.ArrivalsAppend | note_generator.py:219-222 | the segments received over one more iteration are the earlier ones followed by that iteration's |
| NoteGenerator.Arrivals | note_generator.py:219-222 | the segments of every received message with a `segments` entry, in arrival order (see `ArrivalsAppend`) |
| NoteGenerator.RecordsOkAppend | note_generator.py:172-178 | appending a record of a non-empty batch with non-empty notes at the configured depth keeps every record so |
| NoteGenerator.Lossless | note_generator.py:214-245 | processed batches followed by the current batch are exactly the received segments, in order, and every processed batch is non-empty (kept by `HandOver` and every `Generator` method) |
| NoteGenerator.HandOver | note_generator.py:225-228 | handing a non-empty current batch to processing loses and duplicates nothing: the processed batches, now ending with it, still spell out the received segments |
| NoteGenerator.Generator.constructor | note_generator.py:16-43 | demo mode exactly when the API key is absent, empty or the placeholder; the batch, queue and log start empty |
| NoteGenerator.Generator.Emitted | note_generator.py:168-182 | at most one record per handover, present exactly when notes were generated and the `put` succeeded, carrying the notes, the stamp, the batch size and the configured depth |
| NoteGenerator.Generator.Queued | note_generator.py:207-247 | everything queued over a sequence of handovers, in order (see `QueuedAppend`, `QueuedSplit`, `QueuedProperties`) |
| NoteGenerator.Generator.QueuedAppend | note_generator.py:168-182 | one more handover adds exactly its `Emitted` records at the end of the queue |
| NoteGenerator.Generator.QueuedSplit | note_generator.py:207-247 | what a run of handovers queued is what its two parts queued, in order |
| NoteGenerator.Generator.QueuedProperties | note_generator.py:168-182 | over non-empty batches at most one record per handover, each with non-empty notes at the configured depth and a positive segment count |
| NoteGenerator.Generator.ProcessBatch | note_generator.py:168-189 | the batch is recorded as processed; the queue grows by exactly `Emitted` of it (a record of its notes, stamp, size and depth when notes were generated and the `put` succeeded, nothing otherwise) and the log by the same notes when logging to file is enabled |
| NoteGenerator.Generator.FlushBatch | note_generator.py:225-228 | the current batch is processed as `ProcessBatch` says, a new one is started, the batch clock is reset, and no segment is lost |
| NoteGenerator.Generator.Step | note_generator.py:214-237 | one iteration: the received segments join the batch; it is processed at once when a message brings it to 5 or more, otherwise when non-empty and older than 30 s; a processed batch grows the queue and the log by exactly its `Emitted`/`LoggedOf` and resets the batch clock to the reading taken after `process_batch`; otherwise queue, log and batch clock are unchanged; no segment is lost or duplicated |
| NoteGenerator.Generator.Loop | note_generator.py:212-241 | the loop keeps every segment that arrived in a processed batch or the current batch, in arrival order, keeps the queue equal to `Queued` of the processed batches and the log its mirror, and only appends processed batches |
| NoteGenerator.Generator.Shutdown | note_generator.py:243-245 | a non-empty final batch is processed, growing the queue and the log by exactly its `Emitted`/`LoggedOf`; an empty one changes nothing; afterwards every received segment is in a processed batch |
| NoteGenerator.Generator.Run | note_generator.py:207-247 | after the loop and the final flush the processed batches are exactly the received segments in arrival order; the queue is `Queued` of the processed batches, grown by exactly what the new ones produced, every record with non-empty notes of a non-empty batch at the configured depth; the log mirrors the queue when logging to file is enabled |
| UiManager.NoteBlocks | ui_manager.py:145-150 | each buffered note contributes five lines |
| UiManager.NoteBlocksAt | ui_manager.py:145-150 | the `i`-th note occupies lines `5i` to `5i+4` of the blocks |
| UiManager.NotesViewLayout | ui_manager.py:136-152 | the notes view is the header, then the placeholder for an empty buffer or one five-line block per note, in buffer order |
| UiManager.TranscriptLines | ui_manager.py:163-165 | one `[time] text` line per segment, in order |
| UiManager.TranscriptViewLayout | ui_manager.py:154-167 | the transcript view is the header, then the placeholder for an empty buffer or one line for each of the last (at most) 20 segments, oldest first |
| UiManager.FormatNotesDisplay | ui_manager.py:136-152 | the notes view joined by newlines (layout in `NotesViewLayout`) |
| UiManager.FormatTranscriptDisplay | ui_manager.py:154-167 | the transcript view joined by newlines (layout in `TranscriptViewLayout`) |
| UiManager.EscapeSingleQuotes | ui_manager.py:42 | every `'` becomes `'\''` (read back by `QuoteRoundTrip`) |
| UiManager.ShellWord | ui_manager.py:50-53 | how a POSIX shell reads one word of single-quoted runs, backslash escapes and plain characters; none when a quote is left open |
| UiManager.QuoteRoundTrip | ui_manager.py:42 | the single-quote escaping reads back exactly in a POSIX shell |
| UiManager.QuotedTail | ui_manager.py:42 | inside an open quote, the escaped text followed by a closing quote reads back as the original |
| UiManager.SendToTmuxPane | ui_manager.py:37-60 | without tmux or a session nothing runs and `False` is returned; otherwise the runs are the `C-c` send-keys to `session:0.pane` and then the one typing the echo command, the runs stop at the first that raises, and `True` is returned exactly when neither raised |
| UiManager.EchoShowsContent | ui_manager.py:50-53 | the typed command is `clear && echo ` followed by one shell word that reads back as exactly the content, which is what `echo` is passed |
| UiManager.UseTmux | ui_manager.py:17-31 | tmux is used when enabled by configuration (by default) and a non-empty session name is given |
| UiManager.EchoCommand | ui_manager.py:50-53 | the command typed into a pane: `clear && echo '` then the escaped content then `'` |
| UiManager.RunAll | ui_manager.py:169-173 | one subprocess run per command, in order |
| UiManager.Ui.constructor | ui_manager.py:17-31 | tmux is used only when enabled (by default) and a session is given; `new_terminal` defaults to true; the buffers start empty |
| UiManager.Ui.DisplayEffects | ui_manager.py:169-179 | the effects of `update_displays` on given buffers (spelt out by `DisplayLayout`) |
| UiManager.Ui.DisplayLayout | ui_manager.py:169-179 | with tmux the runs are, for panes 1, 2 and 3 in turn, the `C-c` send-keys and then the one typing the echo of the transcript, notes and status view; without tmux the screen is cleared and the status view, a newline, the transcript view cut to 500 characters, a newline and the notes view cut to 1000 are printed |
| UiManager.Ui.UpdateDisplays | ui_manager.py:169-180 | the effects of `DisplayEffects` on the current buffers are appended and the buffers are untouched |
| UiManager.Ui.HandleCommand | ui_manager.py:182-200 | `cleanup_memory` empties the three buffers and does nothing else; `refresh` appends the display effects of the buffers; `show_notes` with non-empty notes shows them in a new terminal or prints them; any other command changes nothing |
| UiManager.Ui.CommandEffects | ui_manager.py:182-200 | what a command does to the outside: the display effects for `refresh`, one terminal or print of the notes for `show_notes` with notes, nothing otherwise |
| UiManager.Ui.ReceiveNote | ui_manager.py:211-220 | the note buffer keeps the last 10, and the note opens a terminal when so configured |
| UiManager.Ui.ReceiveStatus | ui_manager.py:222-226 | the status buffer keeps the last 20 records |
| UiManager.Ui.ReceiveTranscript | ui_manager.py:228-233 | a message with `segments` adds them to the buffer, which keeps the last 50 |
| UiManager.Ui.ReceiveAll | ui_manager.py:211-233 | each non-empty queue read updates its own buffer by the deque rule |
| UiManager.Ui.Step | ui_manager.py:209-245 | one iteration: each buffer is as received, or empty after `cleanup_memory`; the update time moves to now only when more than 2 s have passed; the effects appended are exactly the note's terminal, then the command's effects on the buffers as received, then, when due, the display effects of the buffers the command left |
| RtTranscribe.LoadLastProcessedTime | rt_transcribe.py:66-81 | 0.0 for a missing or blank file or unparsable content, the number otherwise; a read error escapes |
| RtTranscribe.LatestTranscriptFile | rt_transcribe.py:92-114 | a file is found exactly when there is a newest session whose listing succeeds and holds a chunk file; it lies in that session and is the first chunk file in listing order |
| RtTranscribe.Filtered | rt_transcribe.py:129-142 | the kept records in file order; none once an element is not an object (see `FilteredNone`, `FilteredExact`, `FilteredAbove`) |
| RtTranscribe.RecentSegments | rt_transcribe.py:116-156 | the segments a cycle works on: empty for no file, a read error or a non-list, otherwise the filtered records sorted by start (see `RecentSegmentsProperties`) |
| RtTranscribe.Keep | rt_transcribe.py:129-142 | a record contributes one `{start, text}` exactly when it has a segment starting after the watermark |
| RtTranscribe.InsertByStart | rt_transcribe.py:144 | insertion adds exactly the one element |
| RtTranscribe.InsertSorted | rt_transcribe.py:144 | insertion into a sorted list keeps it sorted |
| RtTranscribe.SortByStart | rt_transcribe.py:144 | the sort yields a permutation of its input, sorted by start |
| RtTranscribe.FilteredNone | rt_transcribe.py:153-156 | once a non-object appears, the whole read fails |
| RtTranscribe.FilteredExact | rt_transcribe.py:129-142 | a successful filter saw only objects and keeps exactly the kept records |
| RtTranscribe.RecentSegmentsProperties | rt_transcribe.py:116-156 | a cycle's segments are sorted and all start after the watermark; empty for no file, an error, a non-list or a non-object; otherwise a permutation of the kept records |
| RtTranscribe.KeptAfterWatermark | rt_transcribe.py:141-142 | every kept record starts after the watermark |
| RtTranscribe.SortedLastIsNewest | rt_transcribe.py:400-401 | the last sorted segment has the greatest start |
| RtTranscribe.FilteredAbove | rt_transcribe.py:141-142 | raising the watermark to at least every kept start leaves nothing to keep |
| RtTranscribe.RePollFindsNothing | rt_transcribe.py:400-402 | with the newest start as watermark, the next cycle on the same file finds nothing |
| RtTranscribe.GetRecentSegments | rt_transcribe.py:116-156 | the read loop returns exactly `RecentSegments` |
| RtTranscribe.FormatTranscriptForAiStart | rt_transcribe.py:158-168 | no text for no segments; otherwise the text starts with the first segment's `[time]` |
| RtTranscribe.FormatTranscriptForAi | rt_transcribe.py:158-168 | none for no segments, otherwise one `[time] text` line per segment, stripped (see `FormatTranscriptForAiStart`) |
| RtTranscribe.NotesKindFor | rt_transcribe.py:314-320 | the `depth_level` dispatch, unknown names going to the standard notes (see `NotesKindAgrees`) |
| RtTranscribe.NotesKindAgrees | rt_transcribe.py:314-320 | the depth dispatch agrees with the note generator's prompt choice and sends each depth name to its own notes |
| RtTranscribe.CallDeepseek | rt_transcribe.py:256-304 | a blank user text gives the no-input error without a call; every exception gives its error text; an empty reply gives the empty-notes warning; otherwise the reply |
| RtTranscribe.GenerateNotesFromSegments | rt_transcribe.py:306-320 | no notes exactly when there are no segments |
| RtTranscribe.PrefixContained | rt_transcribe.py:388 | a marker of at most 30 characters at the start lies within the first 30 characters |
| RtTranscribe.MarkedNotGood | rt_transcribe.py:388 | text starting with `Error` or `Warning:` is never good notes |
| RtTranscribe.GoodNotes | rt_transcribe.py:388 | notes are good when present, non-empty and free of `Error` and `Warning:` in their first 30 characters (see `MarkedNotGood`, `FailuresAreNotGoodNotes`) |
| RtTranscribe.FailuresAreNotGoodNotes | rt_transcribe.py:388 | the no-input error, the empty-reply warning and every exception text are rejected as notes |
| RtTranscribe.NoInputNotGood | rt_transcribe.py:267-269 | the no-input error is rejected as notes |
| RtTranscribe.EmptyReplyNotGood | rt_transcribe.py:280-282 | the empty-reply warning is rejected as notes |
| RtTranscribe.ErrorTextNotGood | rt_transcribe.py:284-304 | every exception text is rejected as notes |
| RtTranscribe.GoodNotesExactlyGoodReplies | rt_transcribe.py:377-391 | for a non-empty cycle the notes are good exactly when the AI replied with good content, and they are then that reply |
| RtTranscribe.PromptNotBlank | rt_transcribe.py:266-269 | the prompt of a non-empty cycle is never blank, so the no-input guard never fires on this path |
| RtTranscribe.CallOutcome | rt_transcribe.py:256-304 | for a non-blank text the result is good exactly when the AI replied with good content, and is then that content |
| RtTranscribe.ReplaceAbsent | rt_transcribe.py:327-335 | replacing a character that does not occur changes nothing |
| RtTranscribe.ReplaceOne | rt_transcribe.py:327-335 | replacing the only character of a one-character string gives the replacement |
| RtTranscribe.EscapeOneChar | rt_transcribe.py:327-335 | the five replacements map each character to its own escape; backslash goes first, so the added backslashes are not doubled |
| RtTranscribe.EscapeChainIsPerChar | rt_transcribe.py:327-335 | the replace chain equals the character-by-character escape |
| RtTranscribe.EscapeForTerminal | rt_transcribe.py:327-335 | the five `replace` calls in source order: backslash, double quote, dollar, backtick, newline (see `EscapeOneChar`, `EscapeChainIsPerChar`) |
| RtTranscribe.Unescape | rt_transcribe.py:327-342 | a one-pass reader of the escapes: a backslash with one of the five escape letters gives its character; a raw double quote, dollar, backtick or newline is refused |
| RtTranscribe.EscapeRoundTrip | rt_transcribe.py:327-342 | the replace chain is injective: `Unescape` undoes it, and the escaped notes hold no raw `"`, `$`, backtick or newline |
| RtTranscribe.EscapeEachRoundTrip | rt_transcribe.py:327-342 | the per-character escape is undone by `Unescape` |
| RtTranscribe.UnescapeOne | rt_transcribe.py:327-342 | reading back one escaped character followed by escaped text gives that character followed by the text |
| RtTranscribe.EscapeHasNoNewline | rt_transcribe.py:335 | the escaped notes hold no raw newline |
| RtTranscribe.EscapeEachNoNewline | rt_transcribe.py:335 | the per-character escape holds no raw newline |
| RtTranscribe.Monitor.constructor | rt_transcribe.py:28-63 | the monitor starts at the given watermark, nothing shown, logged or saved |
| RtTranscribe.Monitor.Cycle | rt_transcribe.py:377-405 | what one cycle leaves: with segments and good notes they are shown, logged and the newest start saved; otherwise nothing changes |
| RtTranscribe.Monitor.ProcessTranscriptAsWritten | rt_transcribe.py:377-405 | as written: good notes are shown and logged and the newest start is saved to the file, but the watermark in memory does not move |
| RtTranscribe.Monitor.ProcessSegments | rt_transcribe.py:381-402 | no segments changes nothing; otherwise the cycle's outcome follows the notes check |
| RtTranscribe.Monitor.Conclude | rt_transcribe.py:388-402 | bad notes change nothing; good notes are published and the newest start saved |
| RtTranscribe.Monitor.Publish | rt_transcribe.py:393-398 | good notes are shown once, in a new terminal or printed, and logged when logging is on |
| RtTranscribe.Monitor.ProcessTranscript | rt_transcribe.py:377-405 | corrected: the cycle as above, and on success the watermark in memory moves strictly forward to the newest start, after which the same file yields nothing |
| RtTranscribe.ScenarioSegments | rt_transcribe.py:116-145 | a one-record file at 10.0 yields that one segment from watermark 0.0 |
| RtTranscribe.ScenarioNotes | rt_transcribe.py:306-320 | an AI that always answers `notes` gives the notes `notes` |
| RtTranscribe.ScenarioReplyGood | rt_transcribe.py:388 | `notes` passes the notes check |
| RtTranscribe.ScenarioMonitor | rt_transcribe.py:28-63 | the scenario's monitor prints, starts from 0.0 and gets good notes for the scenario's segment |
| RtTranscribe.RepeatedCycleAsWritten | rt_transcribe.py:400-402 | as written, two cycles on the same file show the same notes twice |
| RtTranscribe.RepeatedCycle | rt_transcribe.py:400-402 | corrected, the second cycle on the same file shows nothing more |
| Coordinator.SetDefault | coordinator.py:67-71 | `setdefault` adds the key, keeps a present value or sets the default, and leaves other keys alone |
| Coordinator.ArchitectureDefaults | coordinator.py:68-71 | the four `setdefault` calls in source order (see `ArchitectureDefaultsOnlyWhereAbsent`, `ArchitectureDefaultsHasKeys`) |
| Coordinator.LoadConfig | coordinator.py:63-73 | loading succeeds exactly when the document is a mapping whose `architecture` entry, if present, is a mapping |
| Coordinator.ArchitectureDefaultsOnlyWhereAbsent | coordinator.py:68-71 | the four defaults (`use_tmux` true, `max_memory_mb` 500, `process_restart_delay` 5, `health_check_interval` 30) are set only where absent; no other key is added or changed |
| Coordinator.LoadConfigDefaults | coordinator.py:63-73 | loading adds `architecture` if absent, fills in its defaults, and leaves every other entry unchanged |
| Coordinator.LoadConfigIdempotent | coordinator.py:63-73 | loading a loaded configuration changes nothing |
| Coordinator.ArchitectureDefaultsHasKeys | coordinator.py:68-71 | after the defaults, all four keys are present |
| Coordinator.LoadConfigOfLoaded | coordinator.py:63-73 | a configuration whose `architecture` already has the four keys loads as itself |
| Coordinator.RoleOf | coordinator.py:243-248 | `restart_process` starts a worker exactly for the three registry keys, and the started worker is the one with that name |
| Coordinator.RoleRoundTrip | coordinator.py:243-248 | each worker's registry key dispatches back to that worker |
| Coordinator.Start | coordinator.py:137-167 | a `start_*` method: a new run stored under the role's key, a new key at the end, an existing key in place (see `StartOk`) |
| Coordinator.Restart | coordinator.py:231-248 | `restart_process`: stop the old run if alive, then start the named worker if it is one of the three (see `RestartRegistered`, `RestartUnknown`, `RestartOk`) |
| Coordinator.StartOk | coordinator.py:137-167 | a start keeps the registry well formed (distinct keys, only role keys, every handle an earlier run), stores the new run under the role's key, keeps every other handle, and keeps the key order when the key was already registered |
| Coordinator.StopActions | coordinator.py:234-239 | at most SIGTERM then kill, and something is sent exactly when the name is registered and alive |
| Coordinator.RestartRegistered | coordinator.py:231-248 | restarting a registered worker keeps the key order, replaces only its handle with the new run, and records the stop actions followed by the start |
| Coordinator.RestartUnknown | coordinator.py:231-248 | a name that is no worker starts nothing and changes nothing |
| Coordinator.RestartOk | coordinator.py:231-248 | a restart keeps the registry well formed |
| Coordinator.Readable | coordinator.py:182-187 | the readable child samples are at most the children |
| Coordinator.SumAppend | coordinator.py:182-187 | the sum of two lists of samples is the sum of their sums |
| Coordinator.ReadableAppend | coordinator.py:182-187 | one more child adds its sample to the readable ones exactly when it could be read |
| Coordinator.TotalMemory | coordinator.py:180-187 | the coordinator's own memory plus that of every readable child (see `TotalMemorySkipsUnreadable`, `TotalMemoryAtLeastOwn`) |
| Coordinator.TotalMemorySkipsUnreadable | coordinator.py:180-187 | the total is the coordinator's own memory plus the sum of the readable children; unreadable children are skipped |
| Coordinator.TotalMemoryAtLeastOwn | coordinator.py:180-187 | with non-negative child samples the total is at least the coordinator's own memory |
| Coordinator.ChildrenNonNegative | coordinator.py:182-187 | non-negative child samples add up to a non-negative amount |
| Coordinator.DistinctCard | coordinator.py:193 | a list of distinct names has as many names as elements |
| Coordinator.StatusFor | coordinator.py:189-201 | the status record of a tick (see `StatusReportsRegistry`) |
| Coordinator.StatusReportsRegistry | coordinator.py:189-201 | the status record carries the total memory and the number of registered workers, lists exactly the registered names, and gives a pid exactly for the live ones |
| Coordinator.CleanupCommands | coordinator.py:208-210 | one `cleanup_memory` command exactly when the total is strictly over the limit and the `put` succeeds |
| Coordinator.Dead | coordinator.py:212-215 | a name is found dead exactly when it is registered and not alive |
| Coordinator.RestartDead | coordinator.py:212-215 | the restart loop over the names as they stood when the tick began (see `RestartDeadIsRenumber`, `RestartDeadProperties`) |
| Coordinator.RestartDeadWorker | coordinator.py:234-248 | restarting a dead registered worker sends it nothing and gives it the next run |
| Coordinator.RenumberedSnoc | coordinator.py:212-215 | restarting one more dead worker renumbers one more name |
| Coordinator.RestartDeadIsRenumber | coordinator.py:212-215 | the restart loop gives the dead names, in order, the next runs |
| Coordinator.RestartDeadOk | coordinator.py:212-215 | the restart loop keeps the registry well formed |
| Coordinator.RenumberKeeps | coordinator.py:212-215 | renumbering keeps the key set and every name not renumbered |
| Coordinator.DistinctInit | coordinator.py:193 | a prefix of distinct names is distinct |
| Coordinator.DistinctTail | coordinator.py:193 | a suffix of distinct names is distinct |
| Coordinator.RenumberNumbers | coordinator.py:212-215 | the `i`-th renumbered distinct name gets run `first + i` |
| Coordinator.DeadDistinct | coordinator.py:212-215 | the dead names of a distinct registry are distinct |
| Coordinator.RestartDeadProperties | coordinator.py:212-215 | a tick's restarts keep the key set and order and the live workers' runs; the `i`-th dead worker gets run `started + i`, and one start per dead worker is recorded, in registry order |
| Coordinator.TerminateAll | coordinator.py:258-260 | SIGTERM to every registered worker in registry order (see `TerminateAllEach`) |
| Coordinator.KillSurvivors | coordinator.py:262-266 | a kill for each registered worker still alive after its join (see `KillsOnlySurvivors`, `SurvivorsAreKilled`) |
| Coordinator.TerminateAllEach | coordinator.py:258-260 | the first shutdown loop sends SIGTERM to each registered worker, in registry order |
| Coordinator.KillsOnlySurvivors | coordinator.py:262-266 | the second shutdown loop kills nothing but surviving registered workers, at most one kill each |
| Coordinator.SurvivorsAreKilled | coordinator.py:262-266 | every surviving registered worker is killed |
| Coordinator.Supervisor.constructor | coordinator.py:39-61 | the registry starts empty, `memory_usage` at 0 and the shutdown event clear |
| Coordinator.Supervisor.StartWorker | coordinator.py:137-167 | a start updates the registry as `Start` does and keeps it well formed |
| Coordinator.Supervisor.StartAll | coordinator.py:284-291 | the transcript monitor, the note generator and the UI manager are started in that order |
| Coordinator.Supervisor.RestartProcess | coordinator.py:231-248 | the registry becomes what `Restart` gives and stays well formed |
| Coordinator.Supervisor.StopOld | coordinator.py:234-239 | the actions sent to the old run are exactly `StopActions` |
| Coordinator.Supervisor.TriggerMemoryCleanup | coordinator.py:223-229 | a successful `put` adds one `cleanup_memory` command; a failed one is swallowed |
| Coordinator.Supervisor.SampleTotal | coordinator.py:180-187 | the summing loop computes `TotalMemory` |
| Coordinator.Supervisor.RestartDeadWorkers | coordinator.py:212-215 | the restart loop over a snapshot of the names leaves the registry as `RestartDead` gives |
| Coordinator.Supervisor.HealthTick | coordinator.py:169-221 | with the shutdown event set nothing happens; otherwise `memory_usage` becomes the own memory, a status record is put when the `put` succeeds, a cleanup command follows `CleanupCommands`, and dead workers are restarted as `RestartDead` gives |
| Coordinator.Supervisor.Shutdown | coordinator.py:254-273 | the event is set, the registry is kept, and the actions are SIGTERM for every worker followed by kills for the survivors |
| Coordinator.Supervisor.TerminateWorkers | coordinator.py:258-260 | the terminate loop appends exactly `TerminateAll` |
| Coordinator.Supervisor.KillWorkers | coordinator.py:262-266 | the join-and-kill loop appends exactly `KillSurvivors` |
| Coordinator.StartAllRegisters | coordinator.py:284-291 | from an empty registry, start-up registers the three workers in order as runs 0, 1 and 2 |

## Left out

- File and queue I/O, JSON and YAML parsing, and the size threshold for streaming
  JSON. Reading a file becomes an input: the decoded records, a directory listing, or
  the watermark file's state. The streaming and whole-file readers are taken to yield
  the same records. Their equivalence is not proved.
- Floating point. Times, memory and CPU are `real`, and `datetime.fromisoformat`,
  `float()` and `strftime` are function parameters. NaN and rounding are not modelled.
- Clocks and sleeps: `time.time()`, `datetime.now()`, the monitor interval, the
  30-second health interval, the 5-second restart delay and `join(timeout=5)`.
  Clock readings are inputs carried by each loop iteration. A note generator
  iteration carries three: the one the `get` timeout is computed from
  (note_generator.py:216), the one the thirty-second test uses (line 233), and the
  one taken after `process_batch` returns, which resets the batch clock (lines 228
  and 237). Time stamps are opaque strings.
- Processes, threads and signals. `multiprocessing`, the health thread, the signal
  handler and `sys.exit` are not modelled. Starts, SIGTERMs and kills are recorded as
  actions on run numbers, and `pid` is a function of the run.
- Coordinator.Supervisor.HealthTick: one liveness reading per worker per tick is
  used for the status record and for the restart loop. The source calls `is_alive()`
  separately for each.
- Coordinator.Supervisor.HealthTick: a worker found dead in a tick is restarted
  with its old handle taken to be dead still (`wasAlive` false).
- Coordinator.Supervisor.HealthTick: the exception path of the health loop (log,
  then sleep 5) is not modelled.
- psutil. The coordinator's own memory, the children's memory (`None` when a child
  cannot be read) and the CPU percentage are inputs.
- The AI client. The OpenAI/DeepSeek call is a function from the prompt kind and
  text to a reply or an exception. Its configuration and its retries are left out,
  and so are the prompt texts.
- Terminals and tmux. `setup_tmux_session`, the coordinator's `send_to_tmux_pane`,
  the Linux terminal fallbacks, the macOS `osascript` window, and the single-process
  monitor's fallback display when `osascript` fails are not modelled. A shown note is
  recorded as an effect. The escaping is proved injective: `Unescape` undoes it.
- `format_status_display` is left out because it depends on the clock, the shared
  state and float formatting. Its text is an input of each UI iteration.
- Logging calls are left out, except for the notes log files.
- Coordinator.Supervisor.Shutdown: a second shutdown (signal handler plus
  `KeyboardInterrupt`) and the `sys.exit(0)` that ends the process are not modelled.
- Coordinator.LoadConfig: YAML keys are strings. A non-string key, and
  non-numeric values of `max_memory_mb` and the other settings, are not modelled.
  The supervisor takes `max_memory_mb` as a `real`.
- RtTranscribe.SortByStart: the sort is an insertion sort proved to give a sorted
  permutation. Stability is not proved. The cycle relies only on the last element
  having the greatest start.
- NoteGenerator.Generator.Step: the batch size is tested only after `extend`
  (note_generator.py:222-226), so six segments arriving in one message form one batch
  of six, as the model has it.
- NoteGenerator.Generator.Step: `process_batch` is taken never to raise, so the bare
  `except` at note_generator.py:230-231 only covers a `get` that times out. The log
  write's `IOError`, which the source swallows, is not modelled, and a log entry
  carries the queue record's time stamp, not the separate `datetime.now()` of
  `log_notes_to_file`.
- NoteGenerator.Generator.Run: the outer `except` of the loop, which logs and sleeps
  5 s (note_generator.py:239-241), is not modelled; no modelled step raises.
- UiManager.Ui.Step: the outer `except` of the loop, which logs and sleeps 1 s
  (ui_manager.py:247-249), is not modelled; no modelled step raises. The update
  time becomes the iteration's clock reading, not a second `time.time()`.
- UiManager.Ui.DisplayEffects: `update_displays` is modelled with no tmux run
  raising; `SendToTmuxPane` models a raising run, but its outcome is ignored there as
  in the source.
- RtTranscribe.LatestTranscriptFile: a listing error other than
  `FileNotFoundError` (rt_transcribe.py:99-110) escapes in the source, and the call at
  rt_transcribe.py:117 lies outside the `try`; the model maps every listing failure to
  `None` and does not model the escaping exception.
- RtTranscribe.EscapeRoundTrip: proves the escaping injective through the one-pass
  reader `Unescape`. The way the terminal script reads the text, first as an
  AppleScript string literal and then through the shell's `echo`, is not modelled.
- RtTranscribe.EscapeEachRoundTrip: the same one-pass reading; the two-pass reading
  by AppleScript and the shell is not modelled.
- The `__main__` blocks and `start_monitoring_loop`/`main` of the single-process
  monitor are not modelled (configuration loading, the API-key check, the endless loop).
  The `Monitor` class models one cycle, and `RepeatedCycle` chains two.
- `gc.collect()` calls are not modelled; they have no effect on the model state.

## Findings

| source | as written | input that shows it | evidently intended | confidence | as-written member | corrected member |
|---|---|---|---|---|---|---|
| rt_transcribe.py:400-402 | after good notes, the newest start is written to the watermark file, but `self.last_processed_time` is never updated, so later cycles filter with the start-up watermark | a file with one record at 10.0, a watermark of 0.0 and an AI that always answers: the second cycle shows the same notes again | the watermark in memory moves with the file, so a second cycle on the same file finds nothing | not executed | RtTranscribe.RepeatedCycleAsWritten | RtTranscribe.RepeatedCycle |
