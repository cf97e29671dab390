/** The UI manager worker: three bounded buffers fed from the notes, status and
    transcript queues, commands dispatched by their type, and the text views it shows in
    tmux panes or prints.

    Each iteration's queue reads are inputs (`None` when the queue was empty), the time
    is an input, and `strftime('%H:%M:%S')` of a start time is a function. What the
    worker sends out is recorded as a sequence of effects. */
module UiManager {
  import opened Common

  const NotesCapacity: nat := 10
  const StatusCapacity: nat := 20
  const TranscriptCapacity: nat := 50
  /** How many of the buffered segments the transcript view shows. */
  const TranscriptViewSize: nat := 20
  /** Seconds between display refreshes. */
  const UpdateInterval: real := 2.0

  /** `'=' * 60`, `'-' * 40`. */
  const Rule60: string := "============================================================"
  const Rule40: string := "----------------------------------------"

  // ---------------------------------------------------------------------------
  // The views
  // ---------------------------------------------------------------------------

  function Header(title: string): seq<string>
  {
    [Rule60, title, Rule60]
  }

  /** The five lines that show one set of notes. */
  function NoteBlock(n: NoteRecord): seq<string>
  {
    ["\n[" + n.timestamp + "]", "Depth: " + n.depthLevel + " | Segments: " + NatToString(n.segmentCount),
     Rule40, n.notes, ""]
  }

  function NoteBlocks(notes: seq<NoteRecord>): (r: seq<string>)
    ensures |r| == 5 * |notes|
  {
    if notes == [] then [] else NoteBlock(notes[0]) + NoteBlocks(notes[1..])
  }

  /** The `i`-th note occupies lines `5 * i` to `5 * i + 4` of the blocks. */
  lemma {:induction false} NoteBlocksAt(notes: seq<NoteRecord>, i: nat)
    requires i < |notes|
    ensures NoteBlocks(notes)[5 * i..5 * i + 5] == NoteBlock(notes[i])
  {
    if i > 0 {
      NoteBlocksAt(notes[1..], i - 1);
      assert NoteBlocks(notes)[5 * i..5 * i + 5] == NoteBlocks(notes[1..])[5 * (i - 1)..5 * (i - 1) + 5];
    }
  }

  /** The lines of `format_notes_display`. */
  function NotesLines(notes: seq<NoteRecord>): seq<string>
  {
    Header("GENERATED NOTES") + (if notes == [] then ["No notes generated yet..."] else NoteBlocks(notes))
  }

  /** `format_notes_display`: the lines joined by newlines. */
  function FormatNotesDisplay(notes: seq<NoteRecord>): string
  {
    Join(NotesLines(notes), "\n")
  }

  /** The notes view is the header followed by the placeholder line when the buffer is
      empty, and otherwise by exactly one five-line block per buffered note, in buffer
      order. */
  lemma NotesViewLayout(notes: seq<NoteRecord>)
    ensures NotesLines(notes)[..3] == Header("GENERATED NOTES")
    ensures notes == [] ==> NotesLines(notes) == Header("GENERATED NOTES") + ["No notes generated yet..."]
    ensures notes != [] ==> |NotesLines(notes)| == 3 + 5 * |notes|
    ensures forall i :: 0 <= i < |notes| ==> NotesLines(notes)[3 + 5 * i..8 + 5 * i] == NoteBlock(notes[i])
  {
    forall i | 0 <= i < |notes|
      ensures NotesLines(notes)[3 + 5 * i..8 + 5 * i] == NoteBlock(notes[i])
    {
      NoteBlocksAt(notes, i);
      assert NotesLines(notes)[3 + 5 * i..8 + 5 * i] == NoteBlocks(notes)[5 * i..5 * i + 5];
    }
  }

  /** One line of the transcript view. */
  function TranscriptLine(s: Segment, fmt: real -> string): string
  {
    "[" + fmt(s.start) + "] " + s.text
  }

  function TranscriptLines(segs: seq<Segment>, fmt: real -> string): (r: seq<string>)
    ensures |r| == |segs|
    ensures forall i :: 0 <= i < |segs| ==> r[i] == TranscriptLine(segs[i], fmt)
  {
    if segs == [] then []
    else
      var rest := TranscriptLines(segs[1..], fmt);
      assert forall i :: 1 <= i < |segs| ==> segs[i] == segs[1..][i - 1];
      [TranscriptLine(segs[0], fmt)] + rest
  }

  /** The lines of `format_transcript_display`. */
  function TranscriptViewLines(buf: seq<Segment>, fmt: real -> string): seq<string>
  {
    Header("RECENT TRANSCRIPTS") +
      (if buf == [] then ["No transcript segments yet..."] else TranscriptLines(LastN(buf, TranscriptViewSize), fmt))
  }

  function FormatTranscriptDisplay(buf: seq<Segment>, fmt: real -> string): string
  {
    Join(TranscriptViewLines(buf, fmt), "\n")
  }

  /** The transcript view shows the placeholder for an empty buffer and otherwise one
      line for each of the last (at most) 20 buffered segments, oldest first. */
  lemma TranscriptViewLayout(buf: seq<Segment>, fmt: real -> string)
    ensures buf == [] ==> TranscriptViewLines(buf, fmt) == Header("RECENT TRANSCRIPTS") + ["No transcript segments yet..."]
    ensures buf != [] ==> |TranscriptViewLines(buf, fmt)| == 3 + Min(20, |buf|)
    ensures buf != [] ==> forall i :: 3 <= i < |TranscriptViewLines(buf, fmt)| ==>
      TranscriptViewLines(buf, fmt)[i] == TranscriptLine(buf[|buf| - Min(20, |buf|) + i - 3], fmt)
  {
  }

  // ---------------------------------------------------------------------------
  // tmux
  // ---------------------------------------------------------------------------

  /** The quoting of `send_to_tmux_pane`: every `'` becomes `'\''`. */
  function EscapeSingleQuotes(s: string): string
  {
    Replace(s, '\'', "'\\''")
  }

  /** How a POSIX shell reads a word made of single-quoted runs, backslash escapes and
      plain characters; `inQuote` says whether a single quote is open. `None` for a
      word that ends inside a quote or with a lone backslash. */
  function ShellWord(w: string, inQuote: bool): Option<string>
    decreases |w|
  {
    if w == [] then (if inQuote then None else Some(""))
    else if inQuote then
      if w[0] == '\'' then ShellWord(w[1..], false) else Prepend(w[0], ShellWord(w[1..], true))
    else if w[0] == '\'' then ShellWord(w[1..], true)
    else if w[0] == '\\' then (if |w| >= 2 then Prepend(w[1], ShellWord(w[2..], false)) else None)
    else Prepend(w[0], ShellWord(w[1..], false))
  }

  function Prepend(c: char, r: Option<string>): Option<string>
  {
    match r
    case None => None
    case Some(s) => Some([c] + s)
  }

  /** The shell reads the quoted content back exactly: the escaping loses nothing and
      lets no quote end the word early. */
  lemma QuoteRoundTrip(s: string)
    ensures ShellWord("'" + EscapeSingleQuotes(s) + "'", false) == Some(s)
  {
    assert ("'" + EscapeSingleQuotes(s) + "'")[1..] == EscapeSingleQuotes(s) + "'";
    QuotedTail(s);
  }

  lemma {:induction false} QuotedTail(s: string)
    ensures ShellWord(EscapeSingleQuotes(s) + "'", true) == Some(s)
    decreases |s|
  {
    var w := EscapeSingleQuotes(s) + "'";
    if s == [] {
      assert w == "'";
      assert ShellWord(w[1..], false) == Some("");
    } else {
      QuotedTail(s[1..]);
      var rest := EscapeSingleQuotes(s[1..]) + "'";
      assert [s[0]] + s[1..] == s;
      if s[0] == '\'' {
        assert EscapeSingleQuotes(s) == "'\\''" + EscapeSingleQuotes(s[1..]);
        assert w == "'\\''" + rest;
        var w1 := w[1..];
        assert w1 == "\\''" + rest;
        assert w1[0] == '\\' && w1[1] == '\'';
        assert w1[2..] == "'" + rest;
        assert ("'" + rest)[1..] == rest;
        assert ShellWord("'" + rest, false) == ShellWord(rest, true);
        assert ShellWord(w1, false) == Prepend('\'', ShellWord(w1[2..], false));
      } else {
        assert w == [s[0]] + rest;
        assert w[1..] == rest;
        assert [s[0]] + s[1..] == s;
      }
    }
  }

  /** `use_tmux`: enabled by configuration (by default) and given a session name. */
  predicate UseTmux(enabled: Option<bool>, session: Option<string>)
  {
    (enabled.None? || enabled.value) && session.Some? && session.value != ""
  }

  /** The shell command typed into a pane: clear it, then echo the quoted content. */
  function EchoCommand(content: string): string
  {
    "clear && echo '" + EscapeSingleQuotes(content) + "'"
  }

  /** The `tmux` target of a pane: `session:0.pane`. */
  function PaneTarget(session: string, pane: nat): string
  {
    session + ":0." + NatToString(pane)
  }

  /** `send_to_tmux_pane`: whether it reports success, and the `tmux send-keys`
      argument lists it runs: interrupt the pane, then type the echo command. Without
      tmux or a session it runs nothing and reports failure. `raisesAt` is the index of
      the `subprocess.run` call that raises (0 or 1), any larger value meaning that
      neither does; a raising call ends the sending and makes it report failure. */
  function SendToTmuxPane(useTmux: bool, session: Option<string>, pane: nat, content: string, raisesAt: nat):
    (r: (bool, seq<seq<string>>))
    ensures r.0 <==> useTmux && session.Some? && session.value != "" && raisesAt >= 2
    ensures !useTmux || session.None? || session.value == "" ==> r.1 == []
    ensures useTmux && session.Some? && session.value != "" ==>
      && |r.1| == Min(raisesAt + 1, 2)
      && r.1[0] == ["tmux", "send-keys", "-t", PaneTarget(session.value, pane), "C-c", "Enter"]
      && (|r.1| == 2 ==> r.1[1] == ["tmux", "send-keys", "-t", PaneTarget(session.value, pane), EchoCommand(content), "Enter"])
  {
    if !useTmux || session.None? || session.value == "" then (false, [])
    else
      var target := PaneTarget(session.value, pane);
      var runs := [["tmux", "send-keys", "-t", target, "C-c", "Enter"],
                   ["tmux", "send-keys", "-t", target, EchoCommand(content), "Enter"]];
      if raisesAt == 0 then (false, runs[..1])
      else if raisesAt == 1 then (false, runs)
      else (true, runs)
  }

  /** The content a pane shows is what the shell reads from the typed echo command. */
  lemma EchoShowsContent(content: string)
    ensures StartsWith(EchoCommand(content), "clear && echo ")
    ensures ShellWord(EchoCommand(content)[14..], false) == Some(content)
  {
    var q := "'" + EscapeSingleQuotes(content) + "'";
    assert EchoCommand(content) == "clear && echo " + q;
    assert EchoCommand(content)[14..] == q;
    QuoteRoundTrip(content);
  }

  // ---------------------------------------------------------------------------
  // The worker
  // ---------------------------------------------------------------------------

  /** What the worker does to the outside: a subprocess run with these arguments, a
      print, or content shown in a new terminal window. */
  datatype Effect = RunCommand(argv: seq<string>) | Printed(text: string) | NewTerminal(content: string)

  function RunAll(cmds: seq<seq<string>>): (r: seq<Effect>)
    ensures |r| == |cmds| && forall i :: 0 <= i < |cmds| ==> r[i] == RunCommand(cmds[i])
  {
    if cmds == [] then []
    else
      assert forall i :: 1 <= i < |cmds| ==> cmds[i] == cmds[1..][i - 1];
      [RunCommand(cmds[0])] + RunAll(cmds[1..])
  }

  /** One iteration's reads from the four queues (`None` for an empty queue), the time
      it ends, and the text of the status view, whose formatting is not modelled. */
  datatype Tick = Tick(note: Option<NoteRecord>, status: Option<Status>, transcript: Option<Message>,
                       command: Option<Command>, now: real, statusView: string)

  class Ui {
    const useTmux: bool
    const session: Option<string>
    /** `output.new_terminal`, true by default. */
    const newTerminal: bool
    const fmt: real -> string
    var notesBuffer: seq<NoteRecord>
    var statusBuffer: seq<Status>
    var transcriptBuffer: seq<Segment>
    var lastUpdate: real
    var effects: seq<Effect>

    ghost predicate Valid()
      reads this
    {
      (useTmux ==> session.Some? && session.value != "") &&
      |notesBuffer| <= NotesCapacity && |statusBuffer| <= StatusCapacity &&
      |transcriptBuffer| <= TranscriptCapacity
    }

    constructor (useTmuxConfig: Option<bool>, session: Option<string>, newTerminalConfig: Option<bool>,
                 fmt: real -> string, startTime: real)
      ensures Valid()
      ensures useTmux == UseTmux(useTmuxConfig, session) && this.session == session
      ensures newTerminal == (newTerminalConfig.None? || newTerminalConfig.value) && this.fmt == fmt
      ensures notesBuffer == [] && statusBuffer == [] && transcriptBuffer == []
      ensures lastUpdate == startTime && effects == []
    {
      useTmux := UseTmux(useTmuxConfig, session);
      this.session := session;
      newTerminal := newTerminalConfig.None? || newTerminalConfig.value;
      this.fmt := fmt;
      notesBuffer := [];
      statusBuffer := [];
      transcriptBuffer := [];
      lastUpdate := startTime;
      effects := [];
    }

    /** What `update_displays` does for these buffers. */
    function DisplayEffects(notes: seq<NoteRecord>, transcript: seq<Segment>, statusView: string): seq<Effect>
    {
      var transcriptView := FormatTranscriptDisplay(transcript, fmt);
      var notesView := FormatNotesDisplay(notes);
      if useTmux then
        RunAll(SendToTmuxPane(useTmux, session, 1, transcriptView, 2).1 +
               SendToTmuxPane(useTmux, session, 2, notesView, 2).1 +
               SendToTmuxPane(useTmux, session, 3, statusView, 2).1)
      else
        [Printed("\U{1B}[2J\U{1B}[H"), Printed(statusView), Printed("\n"),
         Printed(Take(transcriptView, 500)), Printed("\n"), Printed(Take(notesView, 1000))]
    }

    /** With tmux, the transcript, notes and status views are each typed into pane 1, 2
        and 3, each after an interrupt; otherwise the screen is cleared and the status,
        transcript and notes views are printed with a newline printed between each two,
        the transcript view cut to 500 characters and the notes view to 1000. */
    lemma DisplayLayout(notes: seq<NoteRecord>, transcript: seq<Segment>, statusView: string)
      ensures var r := DisplayEffects(notes, transcript, statusView);
        && (useTmux && (session.None? || session.value == "") ==> r == [])
        && (useTmux && session.Some? && session.value != "" ==>
              && |r| == 6
              && r[0] == RunCommand(["tmux", "send-keys", "-t", PaneTarget(session.value, 1), "C-c", "Enter"])
              && r[2] == RunCommand(["tmux", "send-keys", "-t", PaneTarget(session.value, 2), "C-c", "Enter"])
              && r[4] == RunCommand(["tmux", "send-keys", "-t", PaneTarget(session.value, 3), "C-c", "Enter"])
              && r[1] == RunCommand(["tmux", "send-keys", "-t", PaneTarget(session.value, 1),
                                     EchoCommand(FormatTranscriptDisplay(transcript, fmt)), "Enter"])
              && r[3] == RunCommand(["tmux", "send-keys", "-t", PaneTarget(session.value, 2),
                                     EchoCommand(FormatNotesDisplay(notes)), "Enter"])
              && r[5] == RunCommand(["tmux", "send-keys", "-t", PaneTarget(session.value, 3),
                                     EchoCommand(statusView), "Enter"]))
        && (!useTmux ==>
              && |r| == 6 && r[0] == Printed("\U{1B}[2J\U{1B}[H") && r[1] == Printed(statusView)
              && r[2] == Printed("\n") && r[4] == Printed("\n")
              && r[3] == Printed(Take(FormatTranscriptDisplay(transcript, fmt), 500))
              && r[5] == Printed(Take(FormatNotesDisplay(notes), 1000)))
    {
      if useTmux && session.Some? && session.value != "" {
        var s1 := SendToTmuxPane(useTmux, session, 1, FormatTranscriptDisplay(transcript, fmt), 2).1;
        var s2 := SendToTmuxPane(useTmux, session, 2, FormatNotesDisplay(notes), 2).1;
        var s3 := SendToTmuxPane(useTmux, session, 3, statusView, 2).1;
        var sends := s1 + s2 + s3;
        assert |sends| == 6 && sends[0] == s1[0] && sends[1] == s1[1] && sends[2] == s2[0] && sends[3] == s2[1]
          && sends[4] == s3[0] && sends[5] == s3[1];
      }
    }

    method UpdateDisplays(statusView: string)
      modifies this`effects
      ensures effects == old(effects) + DisplayEffects(notesBuffer, transcriptBuffer, statusView)
    {
      effects := effects + DisplayEffects(notesBuffer, transcriptBuffer, statusView);
    }

    /** What `handle_ui_command` does to the outside for these buffers. */
    function CommandEffects(cmd: Command, notes: seq<NoteRecord>, transcript: seq<Segment>, statusView: string):
      seq<Effect>
    {
      if cmd.command == Some("refresh") then DisplayEffects(notes, transcript, statusView)
      else if cmd.command == Some("show_notes") && cmd.notes.Some? && cmd.notes.value != "" then
        if newTerminal then [NewTerminal(cmd.notes.value)] else [Printed(cmd.notes.value)]
      else []
    }

    /** `handle_ui_command`: `cleanup_memory` empties the three buffers, `refresh`
        updates the displays, `show_notes` with non-empty notes shows them in a new
        terminal or prints them; any other command changes nothing. */
    method HandleCommand(cmd: Command, statusView: string)
      requires Valid()
      modifies this`notesBuffer, this`statusBuffer, this`transcriptBuffer, this`effects
      ensures Valid() && lastUpdate == old(lastUpdate)
      ensures cmd.command == Some("cleanup_memory") ==>
        notesBuffer == [] && statusBuffer == [] && transcriptBuffer == [] && effects == old(effects)
      ensures cmd.command != Some("cleanup_memory") ==>
        notesBuffer == old(notesBuffer) && statusBuffer == old(statusBuffer) &&
        transcriptBuffer == old(transcriptBuffer)
      ensures effects == old(effects) + CommandEffects(cmd, old(notesBuffer), old(transcriptBuffer), statusView)
      ensures cmd.command == Some("refresh") ==>
        effects == old(effects) + DisplayEffects(old(notesBuffer), old(transcriptBuffer), statusView)
      ensures cmd.command == Some("show_notes") ==>
        effects == old(effects) +
          (if cmd.notes.None? || cmd.notes.value == "" then []
           else if newTerminal then [NewTerminal(cmd.notes.value)] else [Printed(cmd.notes.value)])
      ensures cmd.command !in {Some("cleanup_memory"), Some("refresh"), Some("show_notes")} ==>
        effects == old(effects)
    {
      if cmd.command == Some("cleanup_memory") {
        notesBuffer := [];
        statusBuffer := [];
        transcriptBuffer := [];
      } else if cmd.command == Some("refresh") {
        UpdateDisplays(statusView);
      } else if cmd.command == Some("show_notes") {
        if cmd.notes.Some? && cmd.notes.value != "" {
          if newTerminal {
            effects := effects + [NewTerminal(cmd.notes.value)];
          } else {
            effects := effects + [Printed(cmd.notes.value)];
          }
        }
      }
    }

    /** A note read from the notes queue joins the notes buffer, and is shown in a new
        terminal when so configured. */
    method ReceiveNote(n: NoteRecord)
      requires Valid()
      modifies this`notesBuffer, this`effects
      ensures Valid()
      ensures notesBuffer == LastN(old(notesBuffer) + [n], NotesCapacity)
      ensures statusBuffer == old(statusBuffer) && transcriptBuffer == old(transcriptBuffer)
      ensures lastUpdate == old(lastUpdate)
      ensures effects == old(effects) + (if newTerminal then [NewTerminal(n.notes)] else [])
    {
      DequeAppendIsLastN(notesBuffer, n, NotesCapacity);
      notesBuffer := DequeAppend(notesBuffer, n, NotesCapacity);
      if newTerminal {
        effects := effects + [NewTerminal(n.notes)];
      }
    }

    method ReceiveStatus(st: Status)
      requires Valid()
      modifies this`statusBuffer
      ensures Valid()
      ensures statusBuffer == LastN(old(statusBuffer) + [st], StatusCapacity)
      ensures notesBuffer == old(notesBuffer) && transcriptBuffer == old(transcriptBuffer)
      ensures lastUpdate == old(lastUpdate) && effects == old(effects)
    {
      DequeAppendIsLastN(statusBuffer, st, StatusCapacity);
      statusBuffer := DequeAppend(statusBuffer, st, StatusCapacity);
    }

    /** A transcript message adds its segments, in order, only if it has `segments`. */
    method ReceiveTranscript(m: Message)
      requires Valid()
      modifies this`transcriptBuffer
      ensures Valid()
      ensures transcriptBuffer ==
        (if m.segments.Some? then LastN(old(transcriptBuffer) + m.segments.value, TranscriptCapacity)
         else old(transcriptBuffer))
      ensures notesBuffer == old(notesBuffer) && statusBuffer == old(statusBuffer)
      ensures lastUpdate == old(lastUpdate) && effects == old(effects)
    {
      if m.segments.Some? {
        DequeExtendIsLastN(transcriptBuffer, m.segments.value, TranscriptCapacity);
        transcriptBuffer := DequeExtend(transcriptBuffer, m.segments.value, TranscriptCapacity);
      }
    }

    /** The three non-blocking reads of one iteration of `run`. */
    method ReceiveAll(t: Tick)
      requires Valid()
      modifies this`notesBuffer, this`statusBuffer, this`transcriptBuffer, this`effects
      ensures Valid()
      ensures notesBuffer ==
        (if t.note.Some? then LastN(old(notesBuffer) + [t.note.value], NotesCapacity) else old(notesBuffer))
      ensures statusBuffer ==
        (if t.status.Some? then LastN(old(statusBuffer) + [t.status.value], StatusCapacity) else old(statusBuffer))
      ensures transcriptBuffer ==
        (if t.transcript.Some? && t.transcript.value.segments.Some?
         then LastN(old(transcriptBuffer) + t.transcript.value.segments.value, TranscriptCapacity)
         else old(transcriptBuffer))
      ensures lastUpdate == old(lastUpdate)
      ensures effects == old(effects) + (if t.note.Some? && newTerminal then [NewTerminal(t.note.value.notes)] else [])
    {
      if t.note.Some? {
        ReceiveNote(t.note.value);
      }
      if t.status.Some? {
        ReceiveStatus(t.status.value);
      }
      if t.transcript.Some? {
        ReceiveTranscript(t.transcript.value);
      }
    }

    /** One iteration of `run`: a note, a status record and a transcript message are
        received, a command is handled, and the displays are updated when more than two
        seconds have passed since the last update. The effects are those of the note,
        then those of the command on the buffers as received, then those of the update
        on the buffers as the command left them. */
    method Step(t: Tick)
      requires Valid()
      modifies this`notesBuffer, this`statusBuffer, this`transcriptBuffer, this`effects, this`lastUpdate
      ensures Valid()
      ensures notesBuffer == (if t.command.Some? && t.command.value.command == Some("cleanup_memory") then []
        else if t.note.Some? then LastN(old(notesBuffer) + [t.note.value], NotesCapacity) else old(notesBuffer))
      ensures statusBuffer == (if t.command.Some? && t.command.value.command == Some("cleanup_memory") then []
        else if t.status.Some? then LastN(old(statusBuffer) + [t.status.value], StatusCapacity) else old(statusBuffer))
      ensures transcriptBuffer == (if t.command.Some? && t.command.value.command == Some("cleanup_memory") then []
        else if t.transcript.Some? && t.transcript.value.segments.Some?
        then LastN(old(transcriptBuffer) + t.transcript.value.segments.value, TranscriptCapacity)
        else old(transcriptBuffer))
      ensures lastUpdate == (if t.now - old(lastUpdate) > UpdateInterval then t.now else old(lastUpdate))
      ensures var notes := if t.note.Some? then LastN(old(notesBuffer) + [t.note.value], NotesCapacity)
                           else old(notesBuffer);
              var transcript := if t.transcript.Some? && t.transcript.value.segments.Some?
                                then LastN(old(transcriptBuffer) + t.transcript.value.segments.value, TranscriptCapacity)
                                else old(transcriptBuffer);
        effects == old(effects)
          + (if t.note.Some? && newTerminal then [NewTerminal(t.note.value.notes)] else [])
          + (if t.command.Some? then CommandEffects(t.command.value, notes, transcript, t.statusView) else [])
          + (if t.now - old(lastUpdate) > UpdateInterval
             then DisplayEffects(notesBuffer, transcriptBuffer, t.statusView) else [])
    {
      ghost var due := t.now - lastUpdate > UpdateInterval;
      ReceiveAll(t);
      ghost var notes, transcript, received := notesBuffer, transcriptBuffer, effects;
      if t.command.Some? {
        HandleCommand(t.command.value, t.statusView);
      }
      ghost var commandEffects := if t.command.Some? then CommandEffects(t.command.value, notes, transcript, t.statusView) else [];
      assert effects == received + commandEffects;
      ghost var handled := effects;
      if t.now - lastUpdate > UpdateInterval {
        UpdateDisplays(t.statusView);
        lastUpdate := t.now;
      }
      assert effects == handled + (if due then DisplayEffects(notesBuffer, transcriptBuffer, t.statusView) else []);
    }
  }
}
