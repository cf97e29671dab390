/** The single-process monitor: every cycle it reads the newest transcript file, keeps
    the records newer than the watermark, sorts them by start, asks the AI for notes at
    the configured depth, shows and logs good notes, and then records the newest start
    as the watermark.

    ISO-8601 and float parsing, `strftime`, and the AI call are given as functions; the
    AI call's outcome is either a reply or one of the client's exceptions. */
module RtTranscribe {
  import opened Common
  import NoteGenerator

  // ---------------------------------------------------------------------------
  // Start-up
  // ---------------------------------------------------------------------------

  /** `load_last_processed_time`: 0.0 for a missing or blank file or a content that is not
      a number, the number otherwise; `None` when reading the file raises, which this
      method does not catch. */
  function LoadLastProcessedTime(file: WatermarkFile, parseFloat: string -> Option<real>): (r: Option<real>)
    ensures file.Missing? ==> r == Some(0.0)
    ensures file.Unreadable? <==> r.None?
    ensures file.Text? && Strip(file.content) == "" ==> r == Some(0.0)
    ensures file.Text? && Strip(file.content) != "" && parseFloat(Strip(file.content)).Some? ==>
      r == parseFloat(Strip(file.content))
    ensures file.Text? && parseFloat(Strip(file.content)).None? ==> r == Some(0.0)
  {
    match file
    case Missing => Some(0.0)
    case Unreadable => None
    case Text(content) =>
      var s := Strip(content);
      if s == "" then Some(0.0)
      else match parseFloat(s)
        case Some(v) => Some(v)
        case None => Some(0.0)
  }

  /** `get_latest_transcript_file_path`: the newest session directory and its first
      chunk file in listing order; `None` when the base directory is absent, no session
      directory exists, its listing fails (`filesIn` gives `None`) or it has no chunk
      file. */
  function LatestTranscriptFile(base: Option<seq<DirEntry>>, filesIn: string -> Option<seq<string>>):
    (r: Option<(string, string)>)
    ensures r.Some? <==>
      && LatestSession(base).Some?
      && filesIn(LatestSession(base).value).Some?
      && FirstChunkFile(filesIn(LatestSession(base).value).value).Some?
    ensures r.Some? ==>
      && r.value.0 == LatestSession(base).value
      && IsChunkFile(r.value.1)
      && r.value.1 in filesIn(r.value.0).value
      && r.value.1 == FirstChunkFile(filesIn(r.value.0).value).value
  {
    match LatestSession(base)
    case None => None
    case Some(session) =>
      match filesIn(session)
      case None => None
      case Some(files) =>
        match FirstChunkFile(files)
        case None => None
        case Some(f) => Some((session, f))
  }

  // ---------------------------------------------------------------------------
  // Filtering and sorting
  // ---------------------------------------------------------------------------

  /** A segment as this program keeps it: its start and its text. */
  datatype TimedText = TimedText(start: real, text: string)

  /** What reading the transcript file gives: no file, a read or decoding error, a JSON
      value that is not a list, or the list's elements. */
  datatype TranscriptFile = NoFile | ReadError | NotAList | Items(items: seq<Item>)

  /** What one record contributes: its segment when it has one and it starts after the
      watermark. */
  function Keep(it: Item, wm: real, parseIso: string -> Option<real>): (r: seq<TimedText>)
    requires it.Record?
    ensures |r| <= 1
    ensures r != [] <==> Candidate(it, parseIso).Some? && Candidate(it, parseIso).value.start > wm
    ensures r != [] ==>
      r[0] == TimedText(Candidate(it, parseIso).value.start, Candidate(it, parseIso).value.text)
  {
    match Candidate(it, parseIso)
    case None => []
    case Some(c) => if c.start > wm then [TimedText(c.start, c.text)] else []
  }

  /** The kept records in file order; `None` when some element is not an object (the
      attempt to read its fields raises and is caught by the catch-all). */
  function Filtered(items: seq<Item>, wm: real, parseIso: string -> Option<real>): Option<seq<TimedText>>
    decreases |items|
  {
    if items == [] then Some([])
    else
      match Filtered(items[..|items| - 1], wm, parseIso)
      case None => None
      case Some(acc) =>
        var it := items[|items| - 1];
        if it.NonRecord? then None else Some(acc + Keep(it, wm, parseIso))
  }

  predicate Sorted(s: seq<TimedText>)
  {
    forall i, j :: 0 <= i < j < |s| ==> s[i].start <= s[j].start
  }

  /** Inserts `x` after every element whose start is not greater, as a stable sort
      does. */
  function InsertByStart(s: seq<TimedText>, x: TimedText): (r: seq<TimedText>)
    ensures |r| == |s| + 1
    ensures multiset(r) == multiset(s) + multiset{x}
    decreases |s|
  {
    if s == [] then [x]
    else if s[|s| - 1].start <= x.start then s + [x]
    else
      assert s == s[..|s| - 1] + [s[|s| - 1]];
      InsertByStart(s[..|s| - 1], x) + [s[|s| - 1]]
  }

  lemma {:induction false} InsertSorted(s: seq<TimedText>, x: TimedText)
    requires Sorted(s)
    ensures Sorted(InsertByStart(s, x))
    decreases |s|
  {
    if s != [] && s[|s| - 1].start > x.start {
      var init := s[..|s| - 1];
      var last := s[|s| - 1];
      InsertSorted(init, x);
      var r' := InsertByStart(init, x);
      forall y | y in r' ensures y.start <= last.start {
        assert y in multiset(r');
        assert y in multiset(init) || y == x;
        if y in multiset(init) {
          var i :| 0 <= i < |init| && init[i] == y;
        }
      }
      assert InsertByStart(s, x) == r' + [last];
    }
  }

  /** `list.sort(key=start)`: insertion sort on the start times. */
  function SortByStart(s: seq<TimedText>): (r: seq<TimedText>)
    ensures |r| == |s| && multiset(r) == multiset(s) && Sorted(r)
    decreases |s|
  {
    if s == [] then []
    else
      assert s == s[..|s| - 1] + [s[|s| - 1]];
      var sorted := SortByStart(s[..|s| - 1]);
      InsertSorted(sorted, s[|s| - 1]);
      InsertByStart(sorted, s[|s| - 1])
  }

  /** The segments a cycle works on. */
  function RecentSegments(file: TranscriptFile, wm: real, parseIso: string -> Option<real>): seq<TimedText>
  {
    match file
    case Items(items) =>
      (match Filtered(items, wm, parseIso)
       case None => []
       case Some(acc) => SortByStart(acc))
    case _ => []
  }

  lemma {:induction false} FilteredNone(items: seq<Item>, k: nat, wm: real, parseIso: string -> Option<real>)
    requires k <= |items| && Filtered(items[..k], wm, parseIso).None?
    ensures Filtered(items, wm, parseIso).None?
    decreases |items| - k
  {
    if k < |items| {
      assert items[..k + 1][..k] == items[..k];
      FilteredNone(items, k + 1, wm, parseIso);
    } else {
      assert items[..k] == items;
    }
  }

  /** Exactly the kept records make it through the filter, each as its start and text. */
  lemma {:induction false} FilteredExact(items: seq<Item>, wm: real, parseIso: string -> Option<real>)
    requires Filtered(items, wm, parseIso).Some?
    ensures forall k :: 0 <= k < |items| ==> items[k].Record?
    ensures forall t :: t in Filtered(items, wm, parseIso).value <==>
      exists k :: 0 <= k < |items| && t in Keep(items[k], wm, parseIso)
    decreases |items|
  {
    if items != [] {
      var init := items[..|items| - 1];
      FilteredExact(init, wm, parseIso);
      assert forall k :: 0 <= k < |init| ==> init[k] == items[k];
    }
  }

  /** A cycle's segments are sorted by start, all start after the watermark, and are
      exactly the kept records of the file (`[]` when it has none or is not a list of
      objects). */
  lemma RecentSegmentsProperties(file: TranscriptFile, wm: real, parseIso: string -> Option<real>)
    ensures var r := RecentSegments(file, wm, parseIso);
      && Sorted(r)
      && (forall i :: 0 <= i < |r| ==> r[i].start > wm)
      && (!file.Items? || Filtered(file.items, wm, parseIso).None? ==> r == [])
      && (file.Items? && Filtered(file.items, wm, parseIso).Some? ==>
            multiset(r) == multiset(Filtered(file.items, wm, parseIso).value))
  {
    var r := RecentSegments(file, wm, parseIso);
    if file.Items? && Filtered(file.items, wm, parseIso).Some? {
      var acc := Filtered(file.items, wm, parseIso).value;
      KeptAfterWatermark(file.items, wm, parseIso);
      forall i | 0 <= i < |r| ensures r[i].start > wm {
        assert r[i] in multiset(acc);
      }
    }
  }

  lemma {:induction false} KeptAfterWatermark(items: seq<Item>, wm: real, parseIso: string -> Option<real>)
    requires Filtered(items, wm, parseIso).Some?
    ensures forall t :: t in Filtered(items, wm, parseIso).value ==> t.start > wm
    decreases |items|
  {
    if items != [] {
      KeptAfterWatermark(items[..|items| - 1], wm, parseIso);
    }
  }

  /** The last element of the sorted segments has the greatest start. */
  lemma SortedLastIsNewest(acc: seq<TimedText>)
    requires acc != []
    ensures forall t :: t in acc ==> t.start <= SortByStart(acc)[|acc| - 1].start
  {
    var r := SortByStart(acc);
    forall t | t in acc ensures t.start <= r[|r| - 1].start {
      assert t in multiset(r);
      var i :| 0 <= i < |r| && r[i] == t;
    }
  }

  /** Raising the watermark to at least every kept start leaves nothing to keep. */
  lemma {:induction false} FilteredAbove(items: seq<Item>, wm: real, wm2: real, parseIso: string -> Option<real>)
    requires Filtered(items, wm, parseIso).Some? && wm <= wm2
    requires forall t :: t in Filtered(items, wm, parseIso).value ==> t.start <= wm2
    ensures Filtered(items, wm2, parseIso) == Some([])
    decreases |items|
  {
    if items != [] {
      var init := items[..|items| - 1];
      var acc := Filtered(init, wm, parseIso).value;
      assert forall t :: t in acc ==> t in Filtered(items, wm, parseIso).value;
      FilteredAbove(init, wm, wm2, parseIso);
      var it := items[|items| - 1];
      var k := Keep(it, wm, parseIso);
      if k != [] {
        assert k[0] in Filtered(items, wm, parseIso).value;
      }
      assert Keep(it, wm2, parseIso) == [];
      assert Filtered(init, wm2, parseIso).value + Keep(it, wm2, parseIso) == [];
    }
  }

  /** Once the watermark is the newest start of a cycle's segments, the next cycle on
      the same file finds nothing. */
  lemma RePollFindsNothing(file: TranscriptFile, wm: real, parseIso: string -> Option<real>)
    requires RecentSegments(file, wm, parseIso) != []
    ensures var r := RecentSegments(file, wm, parseIso);
      r[|r| - 1].start > wm && RecentSegments(file, r[|r| - 1].start, parseIso) == []
  {
    var r := RecentSegments(file, wm, parseIso);
    var acc := Filtered(file.items, wm, parseIso).value;
    assert r == SortByStart(acc);
    SortedLastIsNewest(acc);
    KeptAfterWatermark(file.items, wm, parseIso);
    assert r[|r| - 1] in multiset(acc);
    FilteredAbove(file.items, wm, r[|r| - 1].start, parseIso);
  }

  /** `get_recent_transcript_segments` on what the file read gives. */
  method GetRecentSegments(file: TranscriptFile, wm: real, parseIso: string -> Option<real>)
    returns (segs: seq<TimedText>)
    ensures segs == RecentSegments(file, wm, parseIso)
  {
    if !file.Items? {
      return [];
    }
    var items := file.items;
    var acc: seq<TimedText> := [];
    var i := 0;
    while i < |items|
      invariant 0 <= i <= |items|
      invariant Filtered(items[..i], wm, parseIso) == Some(acc)
      decreases |items| - i
    {
      var it := items[i];
      assert items[..i + 1][..i] == items[..i];
      if it.NonRecord? {
        FilteredNone(items, i + 1, wm, parseIso);
        return [];
      }
      ghost var before := acc;
      var c := Candidate(it, parseIso);
      if c.Some? && c.value.start > wm {
        acc := acc + [TimedText(c.value.start, c.value.text)];
      }
      assert acc == before + Keep(it, wm, parseIso);
      i := i + 1;
    }
    assert items[..i] == items;
    segs := SortByStart(acc);
  }

  // ---------------------------------------------------------------------------
  // Notes
  // ---------------------------------------------------------------------------

  /** `format_transcript_for_ai`: `None` for no segments; otherwise one `[time] text`
      line per segment, stripped, the time to the second when the configured precision
      is `second` and to the minute otherwise. */
  function FormatTranscriptForAi(segs: seq<TimedText>, toSecond: bool, fmt: (real, bool) -> string):
    Option<string>
  {
    if segs == [] then None else Some(Strip(Lines(segs, PromptLine(toSecond, fmt))))
  }

  function PromptLine(toSecond: bool, fmt: (real, bool) -> string): TimedText -> string
  {
    (t: TimedText) => "[" + fmt(t.start, toSecond) + "] " + t.text
  }

  /** The prompt text of a non-empty cycle is never blank: it starts with the first
      segment's `[time]`. */
  lemma FormatTranscriptForAiStart(segs: seq<TimedText>, toSecond: bool, fmt: (real, bool) -> string)
    ensures segs == [] <==> FormatTranscriptForAi(segs, toSecond, fmt).None?
    ensures segs != [] ==>
      StartsWith(FormatTranscriptForAi(segs, toSecond, fmt).value, "[" + fmt(segs[0].start, toSecond) + "]")
  {
    if segs != [] {
      var all := Lines(segs, PromptLine(toSecond, fmt));
      var stamp := "[" + fmt(segs[0].start, toSecond) + "]";
      assert all == stamp + " " + segs[0].text + "\n" + Lines(segs[1..], PromptLine(toSecond, fmt));
      assert all[..|stamp|] == stamp;
      assert !IsSpace(all[0]);
      assert LStrip(all) == all;
      var r := RStrip(all);
      assert !IsSpace(all[|stamp| - 1]);
      assert |stamp| <= |r|;
      assert r[..|stamp|] == all[..|stamp|];
    }
  }

  /** The `depth_level` dispatch of `generate_notes_from_segments`, unknown names going
      to the standard notes. */
  function NotesKindFor(depthLevel: string): Depth
  {
    if depthLevel == "minimal" then Minimal
    else if depthLevel == "standard" then Standard
    else if depthLevel == "detailed" then Detailed
    else if depthLevel == "comprehensive" then Comprehensive
    else Standard
  }

  /** Both programs pick the same prompt for every configured depth. */
  lemma NotesKindAgrees(depthLevel: string)
    ensures NotesKindFor(depthLevel) == NoteGenerator.PromptForDepth(depthLevel)
    ensures forall d :: NotesKindFor(DepthName(d)) == d
  {
  }

  /** The exceptions of the AI client that `call_deepseek` turns into text. */
  datatype ApiError = Timeout | Connection | RateLimit | Status(code: nat) | Unexpected

  /** What the AI call does: returns a message content (possibly none) or raises. */
  datatype AiOutcome = Reply(content: Option<string>) | Failed(error: ApiError, details: string)

  const NoInputText: string := "Error" + ": No transcript text provided for note generation."
  const EmptyReplyText: string := "Warning:" + " DeepSeek returned empty notes."

  /** The text returned for each exception, `Error (<kind>): <summary> Details: <details>`. */
  function ErrorText(e: ApiError, details: string): string
  {
    "Error" + ErrorTail(e, details)
  }

  function ErrorTail(e: ApiError, details: string): string
  {
    " (" + ErrorKind(e) + "): " + ErrorSummary(e) + " Details: " + details
  }

  function ErrorKind(e: ApiError): string
  {
    match e
    case Timeout => "Timeout"
    case Connection => "Connection"
    case RateLimit => "Rate Limit"
    case Status(code) => "API Status " + NatToString(code)
    case Unexpected => "Unexpected"
  }

  function ErrorSummary(e: ApiError): string
  {
    match e
    case Timeout => "DeepSeek API request timed out."
    case Connection => "Could not connect to DeepSeek API."
    case RateLimit | Status(_) => "DeepSeek API request failed."
    case Unexpected => "Failed to generate notes via DeepSeek API."
  }

  /** `call_deepseek`: a blank user text is refused without a call; an empty reply and
      every exception become a warning or error text; otherwise the reply. */
  function CallDeepseek(kind: Depth, userText: string, ai: (Depth, string) -> AiOutcome): (r: string)
    ensures Strip(userText) == "" ==> r == NoInputText
    ensures Strip(userText) != "" && ai(kind, userText).Failed? ==>
      r == ErrorText(ai(kind, userText).error, ai(kind, userText).details)
    ensures Strip(userText) != "" && ai(kind, userText).Reply? ==>
      r == (match ai(kind, userText).content
            case Some(c) => if c == "" then EmptyReplyText else c
            case None => EmptyReplyText)
  {
    if Strip(userText) == "" then NoInputText
    else
      match ai(kind, userText)
      case Failed(e, details) => ErrorText(e, details)
      case Reply(content) =>
        match content
        case Some(c) => if c == "" then EmptyReplyText else c
        case None => EmptyReplyText
  }

  /** `generate_notes_from_segments`: `None` when there is nothing to send, otherwise
      the text `call_deepseek` returns for the prompt of the configured depth. */
  function GenerateNotesFromSegments(segs: seq<TimedText>, depthLevel: string, toSecond: bool,
                                     fmt: (real, bool) -> string, ai: (Depth, string) -> AiOutcome):
    (r: Option<string>)
    ensures segs == [] <==> r.None?
  {
    FormatTranscriptForAiStart(segs, toSecond, fmt);
    match FormatTranscriptForAi(segs, toSecond, fmt)
    case None => None
    case Some(text) =>
      if text == "" then None else Some(CallDeepseek(NotesKindFor(depthLevel), Strip(text), ai))
  }

  /** The check of `process_transcript_and_generate_notes`: notes are good when they
      exist, are not empty, and their first thirty characters contain neither `Error`
      nor `Warning:`. */
  predicate GoodNotes(notes: Option<string>)
  {
    notes.Some? && notes.value != "" &&
    !Contains(Take(notes.value, 30), "Error") && !Contains(Take(notes.value, 30), "Warning:")
  }

  lemma PrefixContained(p: string, rest: string)
    requires |p| <= 30
    ensures Contains(Take(p + rest, 30), p)
  {
    assert Take(p + rest, 30)[..|p|] == p;
  }

  /** Text that starts with `Error` or `Warning:` is never taken for good notes. */
  lemma MarkedNotGood(mark: string, rest: string)
    requires mark == "Error" || mark == "Warning:"
    ensures !GoodNotes(Some(mark + rest))
  {
    PrefixContained(mark, rest);
  }

  /** No failure of the AI call is ever taken for good notes: the refused blank input,
      the empty reply and every exception text all start with `Error` or `Warning:`. */
  lemma FailuresAreNotGoodNotes(e: ApiError, details: string)
    ensures !GoodNotes(Some(NoInputText))
    ensures !GoodNotes(Some(EmptyReplyText))
    ensures !GoodNotes(Some(ErrorText(e, details)))
  {
    NoInputNotGood();
    EmptyReplyNotGood();
    ErrorTextNotGood(e, details);
  }

  lemma NoInputNotGood()
    ensures !GoodNotes(Some(NoInputText))
  {
    MarkedNotGood("Error", ": No transcript text provided for note generation.");
  }

  lemma EmptyReplyNotGood()
    ensures !GoodNotes(Some(EmptyReplyText))
  {
    MarkedNotGood("Warning:", " DeepSeek returned empty notes.");
  }

  lemma ErrorTextNotGood(e: ApiError, details: string)
    ensures !GoodNotes(Some(ErrorText(e, details)))
  {
    MarkedNotGood("Error", ErrorTail(e, details));
  }

  /** For a non-empty cycle the notes are good exactly when the AI replied with
      non-empty content whose first thirty characters contain neither marker; the
      notes are then that reply. */
  lemma GoodNotesExactlyGoodReplies(segs: seq<TimedText>, depthLevel: string, toSecond: bool,
                                    fmt: (real, bool) -> string, ai: (Depth, string) -> AiOutcome)
    requires segs != []
    ensures var notes := GenerateNotesFromSegments(segs, depthLevel, toSecond, fmt, ai);
      var text := Strip(FormatTranscriptForAi(segs, toSecond, fmt).value);
      var outcome := ai(NotesKindFor(depthLevel), text);
      GoodNotes(notes) <==>
        outcome.Reply? && outcome.content.Some? && GoodNotes(outcome.content) && notes == outcome.content
  {
    PromptNotBlank(segs, toSecond, fmt);
    var text := Strip(FormatTranscriptForAi(segs, toSecond, fmt).value);
    assert GenerateNotesFromSegments(segs, depthLevel, toSecond, fmt, ai) ==
      Some(CallDeepseek(NotesKindFor(depthLevel), text, ai));
    CallOutcome(NotesKindFor(depthLevel), text, ai);
  }

  /** The prompt text of a non-empty cycle is not blank, so the blank-input guard of
      `call_deepseek` never fires on this path. */
  lemma PromptNotBlank(segs: seq<TimedText>, toSecond: bool, fmt: (real, bool) -> string)
    requires segs != []
    ensures FormatTranscriptForAi(segs, toSecond, fmt).Some?
    ensures FormatTranscriptForAi(segs, toSecond, fmt).value != ""
    ensures Strip(Strip(FormatTranscriptForAi(segs, toSecond, fmt).value)) != ""
  {
    FormatTranscriptForAiStart(segs, toSecond, fmt);
    var raw := FormatTranscriptForAi(segs, toSecond, fmt).value;
    StripKeepsFirst(raw);
    var text := Strip(raw);
    assert text != "" && !IsSpace(text[0]);
    StripKeepsFirst(text);
  }

  /** For a non-blank text the result of `call_deepseek` is good exactly when the AI
      replied with good content, and is then that content. */
  lemma CallOutcome(kind: Depth, u: string, ai: (Depth, string) -> AiOutcome)
    requires Strip(u) != ""
    ensures var outcome := ai(kind, u);
      GoodNotes(Some(CallDeepseek(kind, u, ai))) <==>
        outcome.Reply? && outcome.content.Some? && GoodNotes(outcome.content)
    ensures var outcome := ai(kind, u);
      GoodNotes(Some(CallDeepseek(kind, u, ai))) ==> Some(CallDeepseek(kind, u, ai)) == outcome.content
  {
    var outcome := ai(kind, u);
    if outcome.Failed? {
      ErrorTextNotGood(outcome.error, outcome.details);
    } else {
      EmptyReplyNotGood();
    }
  }

  // ---------------------------------------------------------------------------
  // Showing notes
  // ---------------------------------------------------------------------------

  /** The replace chain of `display_in_new_terminal`: backslash, double quote, dollar,
      backtick, then newline. */
  function EscapeForTerminal(s: string): string
  {
    Replace(Replace(Replace(Replace(Replace(s, '\\', "\\\\"), '"', "\\\""), '$', "\\$"), '`', "\\`"),
            '\n', "\\n")
  }

  /** What the chain does to one character. */
  function EscapeChar(c: char): string
  {
    if c == '\\' then "\\\\"
    else if c == '"' then "\\\""
    else if c == '$' then "\\$"
    else if c == '`' then "\\`"
    else if c == '\n' then "\\n"
    else [c]
  }

  function EscapeEach(s: string): string
  {
    if s == [] then "" else EscapeChar(s[0]) + EscapeEach(s[1..])
  }

  lemma {:induction false} ReplaceAbsent(s: string, c: char, r: string)
    requires c !in s
    ensures Replace(s, c, r) == s
    decreases |s|
  {
    if s != [] {
      ReplaceAbsent(s[1..], c, r);
      assert [s[0]] + s[1..] == s;
    }
  }

  lemma ReplaceOne(c: char, r: string)
    ensures Replace([c], c, r) == r
  {
    assert [c][1..] == [];
  }

  /** One character through the chain: since the backslash goes first, the backslashes
      the later steps add are not doubled again. */
  lemma EscapeOneChar(c: char)
    ensures EscapeForTerminal([c]) == EscapeChar(c)
  {
    if c == '\\' {
      ReplaceOne(c, "\\\\");
      ReplaceAbsent("\\\\", '"', "\\\"");
      ReplaceAbsent("\\\\", '$', "\\$");
      ReplaceAbsent("\\\\", '`', "\\`");
      ReplaceAbsent("\\\\", '\n', "\\n");
    } else if c == '"' {
      ReplaceAbsent([c], '\\', "\\\\");
      ReplaceOne(c, "\\\"");
      ReplaceAbsent("\\\"", '$', "\\$");
      ReplaceAbsent("\\\"", '`', "\\`");
      ReplaceAbsent("\\\"", '\n', "\\n");
    } else if c == '$' {
      ReplaceAbsent([c], '\\', "\\\\");
      ReplaceAbsent([c], '"', "\\\"");
      ReplaceOne(c, "\\$");
      ReplaceAbsent("\\$", '`', "\\`");
      ReplaceAbsent("\\$", '\n', "\\n");
    } else if c == '`' {
      ReplaceAbsent([c], '\\', "\\\\");
      ReplaceAbsent([c], '"', "\\\"");
      ReplaceAbsent([c], '$', "\\$");
      ReplaceOne(c, "\\`");
      ReplaceAbsent("\\`", '\n', "\\n");
    } else if c == '\n' {
      ReplaceAbsent([c], '\\', "\\\\");
      ReplaceAbsent([c], '"', "\\\"");
      ReplaceAbsent([c], '$', "\\$");
      ReplaceAbsent([c], '`', "\\`");
      ReplaceOne(c, "\\n");
    } else {
      ReplaceAbsent([c], '\\', "\\\\");
      ReplaceAbsent([c], '"', "\\\"");
      ReplaceAbsent([c], '$', "\\$");
      ReplaceAbsent([c], '`', "\\`");
      ReplaceAbsent([c], '\n', "\\n");
    }
  }

  /** The chain of five replacements is the character-by-character escape. */
  lemma {:induction false} EscapeChainIsPerChar(s: string)
    ensures EscapeForTerminal(s) == EscapeEach(s)
    decreases |s|
  {
    if s != [] {
      var c := s[0];
      var rest := s[1..];
      assert s == [c] + rest;
      EscapeChainIsPerChar(rest);
      EscapeOneChar(c);
      ReplaceAppend([c], rest, '\\', "\\\\");
      var a1 := Replace([c], '\\', "\\\\");
      var b1 := Replace(rest, '\\', "\\\\");
      ReplaceAppend(a1, b1, '"', "\\\"");
      var a2 := Replace(a1, '"', "\\\"");
      var b2 := Replace(b1, '"', "\\\"");
      ReplaceAppend(a2, b2, '$', "\\$");
      var a3 := Replace(a2, '$', "\\$");
      var b3 := Replace(b2, '$', "\\$");
      ReplaceAppend(a3, b3, '`', "\\`");
      var a4 := Replace(a3, '`', "\\`");
      var b4 := Replace(b3, '`', "\\`");
      ReplaceAppend(a4, b4, '\n', "\\n");
    }
  }

  /** The inverse of the escaping, read in one pass: a backslash introduces one of
      the five escapes, and a bare double quote, dollar, backtick or newline cannot
      come out of the escaping. This is not how the terminal script reads the text,
      which goes through an AppleScript string literal and then the shell's `echo`. */
  function Unescape(s: string): Option<string>
    decreases |s|
  {
    if s == [] then Some("")
    else if s[0] == '\\' then
      if |s| < 2 then None
      else
        var d := s[1];
        var c := if d == '\\' then Some('\\') else if d == '"' then Some('"') else if d == '$' then Some('$')
                 else if d == '`' then Some('`') else if d == 'n' then Some('\n') else None;
        match c
        case None => None
        case Some(ch) =>
          match Unescape(s[2..])
          case None => None
          case Some(t) => Some([ch] + t)
    else if s[0] in {'"', '$', '`', '\n'} then None
    else
      match Unescape(s[1..])
      case None => None
      case Some(t) => Some([s[0]] + t)
  }

  /** The escaping is injective: `Unescape` undoes it, so no two texts escape alike,
      and the escaped text has no raw double quote, dollar, backtick or newline. */
  lemma {:induction false} EscapeRoundTrip(s: string)
    ensures Unescape(EscapeForTerminal(s)) == Some(s)
    decreases |s|
  {
    EscapeChainIsPerChar(s);
    EscapeEachRoundTrip(s);
  }

  lemma {:induction false} EscapeEachRoundTrip(s: string)
    ensures Unescape(EscapeEach(s)) == Some(s)
    decreases |s|
  {
    if s != [] {
      EscapeEachRoundTrip(s[1..]);
      UnescapeOne(s[0], EscapeEach(s[1..]), s[1..]);
      assert [s[0]] + s[1..] == s;
    }
  }

  lemma UnescapeOne(c: char, e: string, t: string)
    requires Unescape(e) == Some(t)
    ensures Unescape(EscapeChar(c) + e) == Some([c] + t)
  {
    var x := EscapeChar(c) + e;
    if c == '\\' || c == '"' || c == '$' || c == '`' || c == '\n' {
      assert x[0] == '\\' && x[1] == (if c == '\n' then 'n' else c);
      assert x[2..] == e;
    } else {
      assert x[0] == c && x[1..] == e;
    }
  }

  /** The escaped text holds no raw newline. */
  lemma {:induction false} EscapeHasNoNewline(s: string)
    ensures forall i :: 0 <= i < |EscapeForTerminal(s)| ==> EscapeForTerminal(s)[i] != '\n'
  {
    EscapeChainIsPerChar(s);
    EscapeEachNoNewline(s);
  }

  lemma {:induction false} EscapeEachNoNewline(s: string)
    ensures forall i :: 0 <= i < |EscapeEach(s)| ==> EscapeEach(s)[i] != '\n'
    decreases |s|
  {
    if s != [] {
      EscapeEachNoNewline(s[1..]);
      var e := EscapeEach(s);
      var h := EscapeChar(s[0]);
      assert e == h + EscapeEach(s[1..]);
      assert forall i :: 0 <= i < |h| ==> h[i] != '\n';
    }
  }

  /** What a cycle can change outside the monitor: what was shown, what was logged and
      what was written to the watermark file. */
  datatype Outputs = Outputs(shown: seq<Shown>, logged: seq<string>, saved: Option<real>)

  /** How good notes are shown: in a new terminal window, whose script embeds them as
      `EscapeForTerminal(notes)` (which `Unescape` undoes, `EscapeRoundTrip`), or printed
      as they are. */
  datatype Shown = InTerminal(notes: string) | Printed(notes: string)

  // ---------------------------------------------------------------------------
  // The monitor
  // ---------------------------------------------------------------------------

  class Monitor {
    const depthLevel: string
    const toSecond: bool
    const newTerminal: bool
    const logToFile: bool
    const parseIso: string -> Option<real>
    const fmt: (real, bool) -> string
    const ai: (Depth, string) -> AiOutcome
    /** The watermark in memory, the one cycles filter with. */
    var lastProcessedTime: real
    /** The last value written to the watermark file. */
    var savedWatermark: Option<real>
    var shown: seq<Shown>
    var logged: seq<string>

    constructor (watermark: real, depthLevel: string, toSecond: bool, newTerminal: bool, logToFile: bool,
                 parseIso: string -> Option<real>, fmt: (real, bool) -> string, ai: (Depth, string) -> AiOutcome)
      ensures lastProcessedTime == watermark && savedWatermark == None && shown == [] && logged == []
      ensures this.depthLevel == depthLevel && this.toSecond == toSecond && this.newTerminal == newTerminal
      ensures this.logToFile == logToFile && this.parseIso == parseIso && this.fmt == fmt && this.ai == ai
    {
      lastProcessedTime := watermark;
      savedWatermark := None;
      shown := [];
      logged := [];
      this.depthLevel := depthLevel;
      this.toSecond := toSecond;
      this.newTerminal := newTerminal;
      this.logToFile := logToFile;
      this.parseIso := parseIso;
      this.fmt := fmt;
      this.ai := ai;
    }

    /** The notes of one cycle over `segs`. */
    function NotesFor(segs: seq<TimedText>): Option<string>
    {
      GenerateNotesFromSegments(segs, depthLevel, toSecond, fmt, ai)
    }

    function ShowNotes(notes: string): Shown
    {
      if newTerminal then InTerminal(notes) else Printed(notes)
    }

    /** `process_transcript_and_generate_notes` as written: good notes are shown and
        logged and the newest start is written to the watermark file, but the watermark
        in memory stays where it was. */
    method ProcessTranscriptAsWritten(file: TranscriptFile) returns (advanced: bool)
      modifies this
      ensures lastProcessedTime == old(lastProcessedTime)
      ensures var segs := RecentSegments(file, old(lastProcessedTime), parseIso);
        Cycle(segs, NotesFor(segs), advanced, old(Out()), Out())
    {
      var segs := GetRecentSegments(file, lastProcessedTime, parseIso);
      advanced := ProcessSegments(segs);
    }

    /** What one cycle over `segs`, whose notes are `notes`, leaves behind, from the
        displays, the log and the watermark file before it: when there are segments and
        the notes are good, they are shown and logged and the newest start is saved;
        otherwise nothing changes. `advanced` says which. */
    ghost predicate Cycle(segs: seq<TimedText>, notes: Option<string>, advanced: bool,
                          before: Outputs, after: Outputs)
    {
      && (advanced <==> segs != [] && GoodNotes(notes))
      && (advanced ==>
            && after.shown == before.shown + [ShowNotes(notes.value)]
            && after.logged == before.logged + (if logToFile then [notes.value] else [])
            && after.saved == Some(segs[|segs| - 1].start))
      && (!advanced ==> after == before)
    }

    /** The displays, the notes log and the watermark file. */
    function Out(): Outputs
      reads this
    {
      Outputs(shown, logged, savedWatermark)
    }

    method ProcessSegments(segs: seq<TimedText>) returns (advanced: bool)
      modifies this
      ensures lastProcessedTime == old(lastProcessedTime)
      ensures Cycle(segs, NotesFor(segs), advanced, old(Out()), Out())
    {
      if segs == [] {
        return false;
      }
      var notes := NotesFor(segs);
      advanced := Conclude(segs, notes);
    }

    /** The check on the notes and what follows from it. */
    method Conclude(segs: seq<TimedText>, notes: Option<string>) returns (advanced: bool)
      requires segs != []
      modifies this
      ensures lastProcessedTime == old(lastProcessedTime)
      ensures Cycle(segs, notes, advanced, old(Out()), Out())
    {
      if !GoodNotes(notes) {
        return false;
      }
      advanced := true;
      Publish(notes.value);
      savedWatermark := Some(segs[|segs| - 1].start);
    }

    /** Shows good notes (in a new terminal window or printed) and, when logging is on,
        appends them to the notes log. */
    method Publish(notes: string)
      modifies this
      ensures shown == old(shown) + [ShowNotes(notes)]
      ensures logged == old(logged) + (if logToFile then [notes] else [])
      ensures lastProcessedTime == old(lastProcessedTime) && savedWatermark == old(savedWatermark)
    {
      shown := shown + [ShowNotes(notes)];
      if logToFile {
        logged := logged + [notes];
      }
    }

    /** The cycle as intended: the watermark in memory moves together with the file,
        so that the next cycle on the same file finds nothing (`RePollFindsNothing`). */
    method ProcessTranscript(file: TranscriptFile) returns (advanced: bool)
      modifies this
      ensures var segs := RecentSegments(file, old(lastProcessedTime), parseIso);
        Cycle(segs, NotesFor(segs), advanced, old(Out()), Out())
      ensures var segs := RecentSegments(file, old(lastProcessedTime), parseIso);
        advanced ==>
          && lastProcessedTime == segs[|segs| - 1].start
          && lastProcessedTime > old(lastProcessedTime)
          && RecentSegments(file, lastProcessedTime, parseIso) == []
      ensures !advanced ==> lastProcessedTime == old(lastProcessedTime)
    {
      var recent := GetRecentSegments(file, lastProcessedTime, parseIso);
      advanced := ProcessSegments(recent);
      if advanced {
        RePollFindsNothing(file, lastProcessedTime, parseIso);
        lastProcessedTime := recent[|recent| - 1].start;
      }
    }
  }

  /** A file with one record, at 10.0 once parsed. */
  const ScenarioFile: TranscriptFile := Items([Record(Some("2024-01-01T10:00:00"), Some("hello"), None)])

  lemma ScenarioSegments(parseIso: string -> Option<real>)
    requires forall s :: parseIso(s) == Some(10.0)
    ensures RecentSegments(ScenarioFile, 0.0, parseIso) == [TimedText(10.0, "hello")]
  {
    var items := ScenarioFile.items;
    var seg := TimedText(10.0, "hello");
    assert items[..|items| - 1] == [];
    assert Filtered(items[..|items| - 1], 0.0, parseIso) == Some([]);
    assert Keep(items[|items| - 1], 0.0, parseIso) == [seg];
    assert Filtered(items, 0.0, parseIso) == Some([] + [seg]);
    assert [] + [seg] == [seg];
  }

  lemma ScenarioNotes(segs: seq<TimedText>, depthLevel: string, toSecond: bool, fmt: (real, bool) -> string,
                      ai: (Depth, string) -> AiOutcome)
    requires segs != []
    requires forall d, u :: ai(d, u) == Reply(Some("notes"))
    ensures GenerateNotesFromSegments(segs, depthLevel, toSecond, fmt, ai) == Some("notes")
  {
    PromptNotBlank(segs, toSecond, fmt);
    var text := Strip(FormatTranscriptForAi(segs, toSecond, fmt).value);
    var kind := NotesKindFor(depthLevel);
    assert ai(kind, text) == Reply(Some("notes"));
    CallOutcome(kind, text, ai);
    ScenarioReplyGood();
  }

  lemma ScenarioReplyGood()
    ensures GoodNotes(Some("notes"))
  {
    assert Take("notes", 30) == "notes";
    NotContainsWithoutFirstChar("notes", "Error");
    NotContainsWithoutFirstChar("notes", "Warning:");
  }

  /** The defect of the cycle as written, on that file and an AI that always answers:
      two cycles in a row both show notes for the same segment. */
  method RepeatedCycleAsWritten() returns (first: seq<Shown>, second: seq<Shown>)
    ensures first == [Printed("notes")]
    ensures second == [Printed("notes"), Printed("notes")]
  {
    var m := ScenarioMonitor();
    var _ := m.ProcessTranscriptAsWritten(ScenarioFile);
    first := m.shown;
    var _ := m.ProcessTranscriptAsWritten(ScenarioFile);
    second := m.shown;
  }

  /** The corrected cycle on the same file shows the notes once. */
  method RepeatedCycle() returns (first: seq<Shown>, second: seq<Shown>)
    ensures first == [Printed("notes")]
    ensures second == first
  {
    var m := ScenarioMonitor();
    var _ := m.ProcessTranscript(ScenarioFile);
    first := m.shown;
    var _ := m.ProcessTranscript(ScenarioFile);
    second := m.shown;
  }

  /** A monitor that prints notes, starts from watermark 0.0, reads every timestamp as
      10.0 and gets the notes `notes` for every prompt. */
  method ScenarioMonitor() returns (m: Monitor)
    ensures fresh(m) && m.lastProcessedTime == 0.0 && m.shown == []
    ensures RecentSegments(ScenarioFile, 0.0, m.parseIso) == [TimedText(10.0, "hello")]
    ensures m.NotesFor([TimedText(10.0, "hello")]) == Some("notes") && GoodNotes(Some("notes"))
    ensures forall n :: m.ShowNotes(n) == Printed(n)
  {
    var parseIso := (s: string) => Some(10.0);
    var ai := (d: Depth, u: string) => Reply(Some("notes"));
    m := new Monitor(0.0, "standard", true, false, false, parseIso, (t: real, b: bool) => "10:00:00", ai);
    ScenarioSegments(m.parseIso);
    ScenarioNotes([TimedText(10.0, "hello")], m.depthLevel, m.toSecond, m.fmt, m.ai);
    ScenarioReplyGood();
  }
}
