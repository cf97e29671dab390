/** The note generator worker: collects the segments of incoming batches, hands them to
    note generation once at least five have arrived or thirty seconds have passed, and
    queues the resulting notes.

    The clock is given as times carried by each loop iteration, the AI call as a
    function from the chosen prompt and the formatted transcript to its reply (`None`
    when it raises), and `strftime('%H:%M:%S')` of a start time as a function. */
module NoteGenerator {
  import opened Common

  /** Seconds without a batch after which the pending segments are processed anyway. */
  const BatchTimeout: real := 30.0
  /** Segments that trigger processing as soon as they have arrived. */
  const MinBatchSize: nat := 5
  /** The value of `deepseek.api_key` that means no key was configured. */
  const PlaceholderKey: string := "YOUR_DEEPSEEK_API_KEY_HERE"

  /** `setup_ai_client`: without a usable key the worker runs in demo mode. */
  predicate DemoMode(apiKey: Option<string>)
  {
    apiKey.None? || apiKey.value == "" || apiKey.value == PlaceholderKey
  }

  /** `get_prompt_for_depth`: the prompt of the named depth, the standard one for any
      other name. */
  function PromptForDepth(level: string): (d: Depth)
    ensures level == "minimal" <==> d == Minimal
    ensures level == "detailed" <==> d == Detailed
    ensures level == "comprehensive" <==> d == Comprehensive
  {
    if level == "minimal" then Minimal
    else if level == "detailed" then Detailed
    else if level == "comprehensive" then Comprehensive
    else Standard
  }

  /** Every depth is selected by its own name, and only by it or, for the standard one,
      by an unknown name. */
  lemma PromptForDepthRoundTrip(d: Depth, level: string)
    ensures PromptForDepth(DepthName(d)) == d
    ensures PromptForDepth(level) == d ==> level == DepthName(d) || d == Standard
  {
  }

  /** The timeout of the `get` on the input queue: what is left of the thirty seconds
      since the last batch, but never less than one second. */
  function ReceiveTimeout(now: real, lastBatchTime: real): (t: real)
    ensures t >= 1.0 && t >= BatchTimeout - (now - lastBatchTime)
    ensures t == 1.0 || t == BatchTimeout - (now - lastBatchTime)
  {
    var left := BatchTimeout - (now - lastBatchTime);
    if left >= 1.0 then left else 1.0
  }

  /** One line of the text sent to the AI. */
  function AiLine(fmt: real -> string): Segment -> string
  {
    (s: Segment) => "[" + fmt(s.start) + "] " + s.text
  }

  /** `format_segments_for_ai`: one `[time] text` line per segment, stripped. */
  function FormatSegmentsForAi(segs: seq<Segment>, fmt: real -> string): string
  {
    Strip(Lines(segs, AiLine(fmt)))
  }

  /** Stripping never reaches into the `[time]` stamp of the first line, so the text of
      a non-empty batch is never empty; an empty batch gives the empty text. */
  lemma FormatSegmentsForAiStart(segs: seq<Segment>, fmt: real -> string)
    ensures segs == [] ==> FormatSegmentsForAi(segs, fmt) == ""
    ensures segs != [] ==> StartsWith(FormatSegmentsForAi(segs, fmt), "[" + fmt(segs[0].start) + "]")
  {
    if segs != [] {
      var all := Lines(segs, AiLine(fmt));
      var stamp := "[" + fmt(segs[0].start) + "]";
      assert all == stamp + " " + segs[0].text + "\n" + Lines(segs[1..], AiLine(fmt));
      assert all[..|stamp|] == stamp;
      var l := LStrip(all);
      assert !IsSpace(all[0]);
      assert l == all;
      var r := RStrip(l);
      assert all[|stamp| - 1] == ']' && !IsSpace(all[|stamp| - 1]);
      assert |stamp| <= |r|;
      assert r[..|stamp|] == all[..|stamp|];
    }
  }

  /** The header line of demo notes. */
  const DemoHeader: string := "[DEMO MODE - No API Key]\n"
  /** The closing line of demo notes. */
  const DemoFooter: string := "\n(Configure DeepSeek API key in config.yaml for actual notes)"
  /** `'-' * 40`. */
  const DemoRule: string := "----------------------------------------"

  function DemoLine(fmt: real -> string): Segment -> string
  {
    (s: Segment) => "[" + fmt(s.start) + "] " + Take(s.text, 50) + "..."
  }

  /** The lines of demo notes after the rule: one per segment of the first three, its
      time and its first fifty characters followed by an ellipsis. */
  function DemoLines(segs: seq<Segment>, fmt: real -> string): (r: seq<string>)
    ensures |r| == Min(3, |segs|)
    ensures forall i :: 0 <= i < |r| ==> r[i] == "[" + fmt(segs[i].start) + "] " + Take(segs[i].text, 50) + "..."
  {
    LineTexts(Take(segs, 3), DemoLine(fmt))
  }

  /** The lines of demo notes between the header line and the closing line: the depth,
      the number of segments, a rule, and the demo lines. */
  function DemoNoteLines(depthLevel: string, segs: seq<Segment>, fmt: real -> string): (r: seq<string>)
    ensures |r| == 3 + Min(3, |segs|)
    ensures r[0] == "Depth: " + depthLevel && r[1] == "Segments: " + NatToString(|segs|) && r[2] == DemoRule
    ensures forall i :: 0 <= i < Min(3, |segs|) ==>
      r[3 + i] == "[" + fmt(segs[i].start) + "] " + Take(segs[i].text, 50) + "..."
  {
    ["Depth: " + depthLevel, "Segments: " + NatToString(|segs|), DemoRule] + DemoLines(segs, fmt)
  }

  /** The notes of demo mode: the header line, then the lines above, each ending in a
      newline, then the closing line. */
  function DemoNotes(depthLevel: string, segs: seq<Segment>, fmt: real -> string): (r: string)
    ensures StartsWith(r, DemoHeader) && EndsWith(r, DemoFooter)
    ensures StartsWith(r, DemoHeader + ("Depth: " + depthLevel + "\n"))
  {
    var lines := DemoNoteLines(depthLevel, segs, fmt);
    assert Unlines(lines) == "Depth: " + depthLevel + "\n" + Unlines(lines[1..]);
    Affixes(DemoHeader, "Depth: " + depthLevel + "\n", Unlines(lines[1..]), DemoFooter);
    DemoHeader + Unlines(lines) + DemoFooter
  }

  /** `generate_notes`: nothing for an empty batch; in demo mode the demo notes;
      otherwise the AI's reply under the prompt of the configured depth, where a call
      that raises or returns empty notes gives nothing. */
  function GenerateNotes(segs: seq<Segment>, depthLevel: string, demo: bool, fmt: real -> string,
                         ai: (Depth, string) -> Option<string>): (r: Option<string>)
    ensures segs == [] ==> r.None?
    ensures r.Some? ==> r.value != ""
  {
    if segs == [] then None
    else
      var text := FormatSegmentsForAi(segs, fmt);
      if text == "" then None
      else if demo then Some(DemoNotes(depthLevel, segs, fmt))
      else match ai(PromptForDepth(depthLevel), text)
        case None => None
        case Some(notes) => if notes == "" then None else Some(notes)
  }

  /** `'=' * 80` and `'-' * 80`, the rules of the notes log. */
  const LogRule: string := "================================================================================"
  const LogSubRule: string := "--------------------------------------------------------------------------------"

  /** What `log_notes_to_file` appends for one set of notes. */
  function NotesLogEntry(notes: string, stamp: string): (r: string)
    ensures StartsWith(r, "\n\n" + LogRule + "\n")
    ensures EndsWith(r, notes + "\n" + LogRule + "\n")
  {
    var head := "\n\n" + LogRule + "\n";
    var tail := notes + "\n" + LogRule + "\n";
    var r := head + "RESEARCH NOTES - " + stamp + "\n" + LogSubRule + "\n" + tail;
    assert r[..|head|] == head;
    assert r[|r| - |tail|..] == tail;
    r
  }

  /** The cases of `generate_notes` for a non-empty batch: its text is never empty, so
      demo mode always yields the demo notes, and otherwise the result is the AI's
      reply exactly when the call returned and the reply is not empty. */
  lemma GenerateNotesCases(segs: seq<Segment>, depthLevel: string, demo: bool, fmt: real -> string,
                           ai: (Depth, string) -> Option<string>)
    requires segs != []
    ensures var r := GenerateNotes(segs, depthLevel, demo, fmt, ai);
      && (demo ==> r == Some(DemoNotes(depthLevel, segs, fmt)))
      && (!demo ==>
            var reply := ai(PromptForDepth(depthLevel), FormatSegmentsForAi(segs, fmt));
            (r.Some? <==> reply.Some? && reply.value != "") && (r.Some? ==> r == reply))
  {
    FormatSegmentsForAiStart(segs, fmt);
  }

  /** One append to the notes log file; the text written is `NotesLogEntry(notes, stamp)`. */
  datatype LogEntry = LogEntry(notes: string, stamp: string)

  /** One call of `process_batch`: the batch, and the time stamp and `put` outcome that
      call meets. */
  datatype Handover = Handover(batch: seq<Segment>, stamp: string, putOk: bool)

  /** The log entries of queued records: their notes and time stamps, in order. */
  function LogOf(q: seq<NoteRecord>): seq<LogEntry>
  {
    if q == [] then [] else [LogEntry(q[0].notes, q[0].timestamp)] + LogOf(q[1..])
  }

  /** One entry per record, with its notes and time stamp. */
  lemma {:induction false} LogOfEntries(q: seq<NoteRecord>)
    ensures |LogOf(q)| == |q|
    ensures forall i :: 0 <= i < |q| ==> LogOf(q)[i] == LogEntry(q[i].notes, q[i].timestamp)
  {
    if q != [] {
      LogOfEntries(q[1..]);
      assert forall i :: 1 <= i < |q| ==> q[1..][i - 1] == q[i];
    }
  }

  lemma {:induction false} LogOfAppend(a: seq<NoteRecord>, b: seq<NoteRecord>)
    ensures LogOf(a + b) == LogOf(a) + LogOf(b)
  {
    if a == [] {
      assert a + b == b;
    } else {
      assert (a + b)[1..] == a[1..] + b;
      LogOfAppend(a[1..], b);
    }
  }

  /** All segments of a sequence of handed-over batches, in order. */
  function Concat(hs: seq<Handover>): seq<Segment>
  {
    if hs == [] then [] else hs[0].batch + Concat(hs[1..])
  }

  lemma {:induction false} ConcatAppend(hs: seq<Handover>, h: Handover)
    ensures Concat(hs + [h]) == Concat(hs) + h.batch
  {
    if hs != [] {
      assert (hs + [h])[1..] == hs[1..] + [h];
      ConcatAppend(hs[1..], h);
    } else {
      assert Concat([h][1..]) == [];
    }
  }

  /** The segments a received item contributes: those of a message that has a
      `segments` entry, none otherwise. */
  function Arrived(received: Option<Message>): seq<Segment>
  {
    if HasSegments(received) then received.value.segments.value else []
  }

  /** The `get` returned a message with a `segments` entry. */
  predicate HasSegments(received: Option<Message>)
  {
    received.Some? && received.value.segments.Some?
  }

  /** One iteration of the loop of `run`: the time it starts, what the `get` returned
      (`None` when it timed out), the time read for the thirty-second test after the
      `get`, and, for a batch processed in this iteration, its time stamp, its `put`
      outcome and the time read once `process_batch` has returned. */
  datatype Event = Event(startTime: real, received: Option<Message>, now: real, stamp: string, putOk: bool,
                         resetTime: real)

  function Arrivals(events: seq<Event>): seq<Segment>
  {
    if events == [] then [] else Arrived(events[0].received) + Arrivals(events[1..])
  }

  lemma {:induction false} ArrivalsAppend(events: seq<Event>, e: Event)
    ensures Arrivals(events + [e]) == Arrivals(events) + Arrived(e.received)
  {
    if events != [] {
      assert (events + [e])[1..] == events[1..] + [e];
      ArrivalsAppend(events[1..], e);
    } else {
      assert Arrivals([e][1..]) == [];
    }
  }

  lemma ArrivalsPrefix(events: seq<Event>, i: nat)
    requires i < |events|
    ensures Arrivals(events[..i + 1]) == Arrivals(events[..i]) + Arrived(events[i].received)
  {
    assert events[..i + 1] == events[..i] + [events[i]];
    ArrivalsAppend(events[..i], events[i]);
  }

  /** Every record describes a non-empty batch and has non-empty notes at `depth`. */
  ghost predicate RecordsOk(q: seq<NoteRecord>, depth: string)
  {
    forall i :: 0 <= i < |q| ==> q[i].segmentCount > 0 && q[i].notes != "" && q[i].depthLevel == depth
  }

  lemma RecordsOkAppend(q: seq<NoteRecord>, n: NoteRecord, depth: string)
    requires RecordsOk(q, depth) && n.segmentCount > 0 && n.notes != "" && n.depthLevel == depth
    ensures RecordsOk(q + [n], depth)
  {
    assert forall i :: 0 <= i < |q| ==> (q + [n])[i] == q[i];
  }

  /** Handing the current batch over loses nothing: the processed batches, now followed
      by that batch, still spell out the received segments. */
  lemma HandOver(processed: seq<Handover>, h: Handover, received: seq<Segment>)
    requires Lossless(processed, h.batch, received) && h.batch != []
    ensures Lossless(processed + [h], [], received)
  {
    ConcatAppend(processed, h);
    assert Concat(processed + [h]) + [] == Concat(processed + [h]);
  }

  /** No segment is lost or duplicated: the batches processed so far followed by the
      current batch are exactly the segments received, in order, and every processed
      batch is non-empty. */
  ghost predicate Lossless(processed: seq<Handover>, current: seq<Segment>, received: seq<Segment>)
  {
    && Concat(processed) + current == received
    && (forall i :: 0 <= i < |processed| ==> processed[i].batch != [])
  }

  class Generator {
    const depthLevel: string
    const demo: bool
    const logToFile: bool
    const fmt: real -> string
    const ai: (Depth, string) -> Option<string>
    /** `generate_notes` under this configuration. */
    const notesFor: seq<Segment> -> Option<string>
    var currentBatch: seq<Segment>
    var lastBatchTime: real
    /** Every note record `put` on the notes queue. */
    var outputQueue: seq<NoteRecord>
    /** What this worker appended to the notes log file, in order. */
    var notesLog: seq<LogEntry>
    /** Every segment received, and every call of `process_batch`. */
    ghost var received: seq<Segment>
    ghost var processed: seq<Handover>

    /** What `process_batch` queues for one handover: one record of the notes, the
        batch size and the depth when notes were generated and the `put` succeeded. */
    function Emitted(h: Handover): (q: seq<NoteRecord>)
      ensures |q| <= 1
      ensures q != [] <==> h.putOk && notesFor(h.batch).Some?
      ensures q != [] ==> q[0] == NoteRecord(notesFor(h.batch).value, h.stamp, |h.batch|, depthLevel)
    {
      var notes := notesFor(h.batch);
      if notes.Some? && h.putOk then [NoteRecord(notes.value, h.stamp, |h.batch|, depthLevel)] else []
    }

    /** What `process_batch` appends to the notes log for one handover: the queued
        notes, when logging to file is enabled. */
    function LoggedOf(h: Handover): seq<LogEntry>
    {
      if logToFile then LogOf(Emitted(h)) else []
    }

    /** Everything queued over a sequence of handovers, in order. */
    function Queued(hs: seq<Handover>): seq<NoteRecord>
    {
      if hs == [] then [] else Emitted(hs[0]) + Queued(hs[1..])
    }

    lemma {:induction false} QueuedAppend(hs: seq<Handover>, h: Handover)
      ensures Queued(hs + [h]) == Queued(hs) + Emitted(h)
    {
      if hs == [] {
        assert [h][1..] == [];
      } else {
        assert (hs + [h])[1..] == hs[1..] + [h];
        QueuedAppend(hs[1..], h);
      }
    }

    /** At most one record per handover, each with non-empty notes at the configured
        depth and the size of its non-empty batch. */
    lemma {:induction false} QueuedProperties(hs: seq<Handover>)
      requires NotesNonEmpty()
      requires forall i :: 0 <= i < |hs| ==> hs[i].batch != []
      ensures |Queued(hs)| <= |hs|
      ensures RecordsOk(Queued(hs), depthLevel)
    {
      if hs != [] {
        assert forall i :: 0 <= i < |hs[1..]| ==> hs[1..][i] == hs[i + 1];
        QueuedProperties(hs[1..]);
        var e, rest := Emitted(hs[0]), Queued(hs[1..]);
        assert forall i :: 0 <= i < |rest| ==> (e + rest)[|e| + i] == rest[i];
      }
    }

    /** What a sequence of handovers produced is what its two parts produced. */
    lemma {:induction false} QueuedSplit(hs: seq<Handover>, k: nat)
      requires k <= |hs|
      ensures Queued(hs) == Queued(hs[..k]) + Queued(hs[k..])
    {
      if k == 0 {
        assert hs[..k] == [] && hs[k..] == hs;
      } else {
        QueuedSplit(hs[1..], k - 1);
        assert hs[1..][..k - 1] == hs[..k][1..] && hs[1..][k - 1..] == hs[k..];
      }
    }

    /** `notesFor` is `generate_notes` with the configured depth, mode, clock format and
        AI call. */
    ghost predicate Configured()
    {
      forall segs :: notesFor(segs) == GenerateNotes(segs, depthLevel, demo, fmt, ai)
    }

    /** An empty batch has no notes, and generated notes are never empty. */
    ghost predicate NotesNonEmpty()
    {
      notesFor([]).None? && forall segs :: notesFor(segs).Some? ==> notesFor(segs).value != ""
    }

    /** The queue holds exactly what the processed batches produced, and the log, when
        logging to file is enabled, the notes and time stamps of the queued records. */
    ghost predicate Accounts()
      reads this
    {
      outputQueue == Queued(processed) && notesLog == (if logToFile then LogOf(outputQueue) else [])
    }

    ghost predicate Valid()
      reads this
    {
      NotesNonEmpty() && Lossless(processed, currentBatch, received) && Accounts()
    }

    constructor (apiKey: Option<string>, depthLevel: string, logToFile: bool, fmt: real -> string,
                 ai: (Depth, string) -> Option<string>, startTime: real)
      ensures Valid() && Configured()
      ensures this.depthLevel == depthLevel && demo == DemoMode(apiKey) && this.logToFile == logToFile
      ensures this.fmt == fmt && this.ai == ai
      ensures currentBatch == [] && lastBatchTime == startTime && outputQueue == [] && notesLog == []
      ensures received == [] && processed == []
    {
      this.depthLevel := depthLevel;
      demo := DemoMode(apiKey);
      this.logToFile := logToFile;
      this.fmt := fmt;
      this.ai := ai;
      var mode := DemoMode(apiKey);
      notesFor := segs => GenerateNotes(segs, depthLevel, mode, fmt, ai);
      currentBatch := [];
      lastBatchTime := startTime;
      outputQueue := [];
      notesLog := [];
      received := [];
      processed := [];
    }

    /** `process_batch`: notes generated for the batch are queued with its size and the
        configured depth, and logged to the file when that is enabled; a failed `put`
        or a batch without notes queues nothing. */
    method ProcessBatch(segments: seq<Segment>, stamp: string, putOk: bool)
      requires Accounts()
      modifies this`processed, this`outputQueue, this`notesLog
      ensures Accounts()
      ensures var h := Handover(segments, stamp, putOk);
        && processed == old(processed) + [h]
        && outputQueue == old(outputQueue) + Emitted(h)
        && notesLog == old(notesLog) + LoggedOf(h)
    {
      QueuedAppend(processed, Handover(segments, stamp, putOk));
      processed := processed + [Handover(segments, stamp, putOk)];
      var notes := notesFor(segments);
      if notes.Some? && putOk {
        var rec := NoteRecord(notes.value, stamp, |segments|, depthLevel);
        outputQueue := outputQueue + [rec];
        if logToFile {
          LogOfAppend(old(outputQueue), [rec]);
          notesLog := notesLog + [LogEntry(notes.value, stamp)];
        }
      }
    }

    /** Hands the current batch to `process_batch` and starts a new one. */
    method FlushBatch(stamp: string, putOk: bool, now: real)
      requires Valid() && currentBatch != []
      modifies this`processed, this`outputQueue, this`notesLog, this`currentBatch, this`lastBatchTime
      ensures Valid()
      ensures currentBatch == [] && lastBatchTime == now
      ensures var h := Handover(old(currentBatch), stamp, putOk);
        && processed == old(processed) + [h]
        && outputQueue == old(outputQueue) + Emitted(h)
        && notesLog == old(notesLog) + LoggedOf(h)
    {
      HandOver(processed, Handover(currentBatch, stamp, putOk), received);
      ProcessBatch(currentBatch, stamp, putOk);
      currentBatch := [];
      lastBatchTime := now;
    }

    /** One iteration of the loop of `run`. The `get` waits `ReceiveTimeout`; the
        segments of a message join the current batch, which is processed at once when
        it holds at least five; otherwise a non-empty batch older than thirty seconds
        is processed. At most one batch is processed per iteration, and only a
        processed batch queues or logs anything. */
    method Step(ev: Event) returns (waited: real)
      requires Valid()
      modifies this`received, this`processed, this`outputQueue, this`notesLog, this`currentBatch, this`lastBatchTime
      ensures Valid()
      ensures waited == ReceiveTimeout(ev.startTime, old(lastBatchTime))
      ensures received == old(received) + Arrived(ev.received)
      ensures |old(processed)| <= |processed| <= |old(processed)| + 1 && processed[..|old(processed)|] == old(processed)
      ensures var h := Handover(old(currentBatch) + Arrived(ev.received), ev.stamp, ev.putOk);
        if (HasSegments(ev.received) && |h.batch| >= MinBatchSize)
           || (h.batch != [] && ev.now - old(lastBatchTime) > BatchTimeout) then
          && processed == old(processed) + [h] && currentBatch == [] && lastBatchTime == ev.resetTime
          && outputQueue == old(outputQueue) + Emitted(h) && notesLog == old(notesLog) + LoggedOf(h)
        else
          && processed == old(processed) && currentBatch == h.batch && lastBatchTime == old(lastBatchTime)
          && outputQueue == old(outputQueue) && notesLog == old(notesLog)
    {
      waited := ReceiveTimeout(ev.startTime, lastBatchTime);
      if HasSegments(ev.received) {
        currentBatch := currentBatch + ev.received.value.segments.value;
        received := received + ev.received.value.segments.value;
        if |currentBatch| >= MinBatchSize {
          FlushBatch(ev.stamp, ev.putOk, ev.resetTime);
          return;
        }
      }
      assert currentBatch == old(currentBatch) + Arrived(ev.received);
      if currentBatch != [] && ev.now - lastBatchTime > BatchTimeout {
        FlushBatch(ev.stamp, ev.putOk, ev.resetTime);
      }
    }

    /** After the loop: a non-empty current batch is processed one last time. */
    method Shutdown(stamp: string, putOk: bool, now: real)
      requires Valid()
      modifies this`received, this`processed, this`outputQueue, this`notesLog, this`currentBatch, this`lastBatchTime
      ensures Valid()
      ensures currentBatch == [] && received == old(received)
      ensures Concat(processed) == received
      ensures var h := Handover(old(currentBatch), stamp, putOk);
        if h.batch != [] then
          && processed == old(processed) + [h]
          && outputQueue == old(outputQueue) + Emitted(h) && notesLog == old(notesLog) + LoggedOf(h)
        else
          processed == old(processed) && outputQueue == old(outputQueue) && notesLog == old(notesLog)
    {
      if currentBatch != [] {
        FlushBatch(stamp, putOk, now);
      }
    }

    /** The loop of `run` over the iterations before the shutdown event is set: the
        segments of every message have joined the processed batches or the current
        batch, in order of arrival, and the queue and the log have grown by exactly
        what the batches processed meanwhile produced. */
    method Loop(events: seq<Event>)
      requires Valid()
      modifies this`received, this`processed, this`outputQueue, this`notesLog, this`currentBatch, this`lastBatchTime
      ensures Valid()
      ensures received == old(received) + Arrivals(events)
      ensures |processed| >= |old(processed)| && processed[..|old(processed)|] == old(processed)
    {
      ghost var start := |processed|;
      var i := 0;
      while i < |events|
        invariant 0 <= i <= |events|
        invariant Valid()
        invariant received == old(received) + Arrivals(events[..i])
        invariant |processed| >= start && processed[..start] == old(processed)
        decreases |events| - i
      {
        ArrivalsPrefix(events, i);
        ghost var before := processed;
        var _ := Step(events[i]);
        assert processed[..start] == before[..start];
        i := i + 1;
      }
      assert events[..i] == events;
    }

    /** `run`: the loop, followed by the final flush. Every segment that arrived has
        then been handed to exactly one processed batch, in order of arrival; the queue
        holds one record, with non-empty notes at the configured depth, per batch that
        got notes and a successful `put`; the log mirrors the queue when logging to
        file is enabled; and the queue and the log have grown by exactly what the
        batches processed meanwhile produced. */
    method Run(events: seq<Event>, stamp: string, putOk: bool, now: real)
      requires Valid()
      modifies this`received, this`processed, this`outputQueue, this`notesLog, this`currentBatch, this`lastBatchTime
      ensures Valid()
      ensures received == old(received) + Arrivals(events)
      ensures currentBatch == [] && Concat(processed) == received
      ensures |processed| >= |old(processed)| && processed[..|old(processed)|] == old(processed)
      ensures outputQueue == Queued(processed) && RecordsOk(outputQueue, depthLevel)
      ensures notesLog == if logToFile then LogOf(outputQueue) else []
      ensures outputQueue == old(outputQueue) + Queued(processed[|old(processed)|..])
    {
      Loop(events);
      ghost var before := processed;
      Shutdown(stamp, putOk, now);
      assert processed[..|old(processed)|] == before[..|old(processed)|];
      QueuedProperties(processed);
      QueuedSplit(processed, |old(processed)|);
    }

  }
}
