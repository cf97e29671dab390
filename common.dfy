/** Values and string/sequence helpers shared by the pipeline's workers: the record
    shapes that travel over the queues, Python's `str.strip`, slicing, `str.join`,
    `str.replace` for a one-character pattern, `in` on strings, code-point ordering
    of names, and the `collections.deque(maxlen=...)` append rule. */
module Common {

  datatype Option<T> = None | Some(value: T)

  // ---------------------------------------------------------------------------
  // Records that travel between the workers
  // ---------------------------------------------------------------------------

  /** One accepted transcript utterance: `{start, text, chunk_id, timestamp}`. */
  datatype Segment = Segment(start: real, text: string, chunkId: Option<string>, timestamp: string)

  /** One decoded JSON value of a transcript file. `Record` is a JSON object, with the
      three keys it may carry (`None` for a missing key or a JSON null); `NonRecord` is
      any other JSON value, on which `.get` raises. */
  datatype Item =
    | Record(timestamp: Option<string>, rawTranscript: Option<string>, chunkId: Option<string>)
    | NonRecord

  /** The watermark file as a read finds it: absent, present but unreadable (an I/O
      error other than "not found"), or present with some text. */
  datatype WatermarkFile = Missing | Unreadable | Text(content: string)

  /** A flush of the transcript monitor: the `segments` and `count` of its
      `{segments, batch_time, count}` message. The `batch_time` stamp is dropped: no
      consumer reads it. */
  datatype Batch = Batch(segments: seq<Segment>, count: nat)

  /** What a consumer of the transcript queue sees: `segments` is `None` when the value
      read is falsy or has no `segments` key. */
  datatype Message = Message(segments: Option<seq<Segment>>)

  /** A note-generation result on the notes queue. */
  datatype NoteRecord = NoteRecord(notes: string, timestamp: string, segmentCount: nat, depthLevel: string)

  datatype ProcStatus = ProcStatus(alive: bool, pid: Option<nat>)

  /** The supervisor's status snapshot on the status queue. */
  datatype Status = Status(timestamp: string, cpuPercent: real, memoryMb: real,
                           numProcesses: nat, processes: map<string, ProcStatus>)

  /** A message on the UI command queue: `{command, notes}` (either key may be absent). */
  datatype Command = Command(command: Option<string>, notes: Option<string>)

  /** The four note-taking depth levels. */
  datatype Depth = Minimal | Standard | Detailed | Comprehensive

  function DepthName(d: Depth): string
  {
    match d
    case Minimal => "minimal"
    case Standard => "standard"
    case Detailed => "detailed"
    case Comprehensive => "comprehensive"
  }

  // ---------------------------------------------------------------------------
  // Prefixes, suffixes, substrings
  // ---------------------------------------------------------------------------

  predicate StartsWith(s: string, p: string)
  {
    |p| <= |s| && s[..|p|] == p
  }

  predicate EndsWith(s: string, p: string)
  {
    |p| <= |s| && s[|s| - |p|..] == p
  }

  /** `a + (b + c) + d` starts with `a` and with `a + b`, and ends with `d`. */
  lemma Affixes<T>(a: seq<T>, b: seq<T>, c: seq<T>, d: seq<T>)
    ensures var s := a + (b + c) + d; |a + b| <= |s| && s[..|a|] == a && s[..|a + b|] == a + b && s[|s| - |d|..] == d
  {
  }

  /** Python's `sub in s`. */
  predicate Contains(s: string, sub: string)
    decreases |s|
  {
    StartsWith(s, sub) || (|s| > 0 && Contains(s[1..], sub))
  }

  /** `sub in s` fails when `s` has no character of `sub`'s first character. */
  lemma {:induction false} NotContainsWithoutFirstChar(s: string, sub: string)
    requires |sub| > 0
    requires forall i :: 0 <= i < |s| ==> s[i] != sub[0]
    ensures !Contains(s, sub)
    decreases |s|
  {
    if |s| > 0 {
      if |sub| <= |s| {
        assert s[..|sub|][0] == s[0];
      }
      NotContainsWithoutFirstChar(s[1..], sub);
    }
  }

  // ---------------------------------------------------------------------------
  // Slicing
  // ---------------------------------------------------------------------------

  function Min(a: int, b: int): int { if a <= b then a else b }

  /** Python's `s[:n]`. */
  function Take<T>(s: seq<T>, n: nat): (r: seq<T>)
    ensures |r| == Min(n, |s|) && r == s[..|r|]
  {
    if |s| <= n then s else s[..n]
  }

  /** Python's `s[-n:]` for `n > 0`, and what a deque with `maxlen = n` keeps of `s`. */
  function LastN<T>(s: seq<T>, n: nat): (r: seq<T>)
    ensures |r| == Min(n, |s|) && r == s[|s| - |r|..]
  {
    if |s| <= n then s else s[|s| - n..]
  }

  /** Trimming a prefix and then the whole: the last `n` of (the last `n` of `a`) + `b`
      are the last `n` of `a + b`. */
  lemma LastNAppend<T>(a: seq<T>, b: seq<T>, n: nat)
    ensures LastN(LastN(a, n) + b, n) == LastN(a + b, n)
  {
    var la := LastN(a, n);
    assert (a + b)[|a| - |la|..] == la + b;
  }

  // ---------------------------------------------------------------------------
  // collections.deque(maxlen = cap)
  // ---------------------------------------------------------------------------

  /** `deque.append(x)` on a deque bounded by `cap`: when full, the oldest item is
      dropped; a deque with `maxlen = 0` stays empty. */
  function DequeAppend<T>(buf: seq<T>, x: T, cap: nat): (r: seq<T>)
    requires |buf| <= cap
    ensures |r| <= cap
  {
    if cap == 0 then []
    else if |buf| < cap then buf + [x]
    else buf[1..] + [x]
  }

  /** `deque.extend(xs)`: one `append` per item, in order. */
  function DequeExtend<T>(buf: seq<T>, xs: seq<T>, cap: nat): (r: seq<T>)
    requires |buf| <= cap
    ensures |r| <= cap
    decreases |xs|
  {
    if xs == [] then buf else DequeExtend(DequeAppend(buf, xs[0], cap), xs[1..], cap)
  }

  /** One append keeps exactly the last `cap` items. */
  lemma DequeAppendIsLastN<T>(buf: seq<T>, x: T, cap: nat)
    requires |buf| <= cap
    ensures DequeAppend(buf, x, cap) == LastN(buf + [x], cap)
  {
    if cap > 0 && |buf| == cap {
      assert (buf + [x])[|buf + [x]| - cap..] == buf[1..] + [x];
    }
  }

  /** A bounded deque always holds the last `cap` of everything appended to it. */
  lemma {:induction false} DequeExtendIsLastN<T>(buf: seq<T>, xs: seq<T>, cap: nat)
    requires |buf| <= cap
    ensures DequeExtend(buf, xs, cap) == LastN(buf + xs, cap)
    decreases |xs|
  {
    if xs == [] {
      assert buf + xs == buf;
    } else {
      var b1 := DequeAppend(buf, xs[0], cap);
      DequeAppendIsLastN(buf, xs[0], cap);
      DequeExtendIsLastN(b1, xs[1..], cap);
      LastNAppend(buf + [xs[0]], xs[1..], cap);
      assert buf + [xs[0]] + xs[1..] == buf + xs;
    }
  }

  // ---------------------------------------------------------------------------
  // str.strip()
  // ---------------------------------------------------------------------------

  /** The characters Python's `str.strip()` removes (its `isspace` set). */
  predicate IsSpace(c: char)
  {
    c == ' ' || ('\t' <= c <= '\r') || ('\U{1C}' <= c <= '\U{1F}') || c == '\U{85}' || c == '\U{A0}' ||
    c == '\U{1680}' || ('\U{2000}' <= c <= '\U{200A}') || c == '\U{2028}' || c == '\U{2029}' ||
    c == '\U{202F}' || c == '\U{205F}' || c == '\U{3000}'
  }

  function LStrip(s: string): (r: string)
    ensures |r| <= |s| && r == s[|s| - |r|..]
    ensures forall i :: 0 <= i < |s| - |r| ==> IsSpace(s[i])
    ensures r == [] || !IsSpace(r[0])
    decreases |s|
  {
    if s != [] && IsSpace(s[0]) then LStrip(s[1..]) else s
  }

  function RStrip(s: string): (r: string)
    ensures |r| <= |s| && r == s[..|r|]
    ensures forall i :: |r| <= i < |s| ==> IsSpace(s[i])
    ensures r == [] || !IsSpace(r[|r| - 1])
    decreases |s|
  {
    if s != [] && IsSpace(s[|s| - 1]) then RStrip(s[..|s| - 1]) else s
  }

  /** Python's `s.strip()`. */
  function Strip(s: string): string
  {
    RStrip(LStrip(s))
  }

  /** A string that begins with a non-space character keeps that character first. */
  lemma StripKeepsFirst(s: string)
    requires s != [] && !IsSpace(s[0])
    ensures Strip(s) != [] && Strip(s)[0] == s[0]
  {
    assert LStrip(s) == s;
  }

  // ---------------------------------------------------------------------------
  // Building text
  // ---------------------------------------------------------------------------

  /** `sep.join(parts)`. */
  function Join(parts: seq<string>, sep: string): string
  {
    if |parts| == 0 then ""
    else if |parts| == 1 then parts[0]
    else parts[0] + sep + Join(parts[1..], sep)
  }

  /** The text a Python loop builds with `text += f"...\n"`: one line per item, each
      followed by a newline. */
  function Lines<T>(xs: seq<T>, line: T -> string): string
  {
    if xs == [] then "" else line(xs[0]) + "\n" + Lines(xs[1..], line)
  }

  lemma {:induction false} LinesAppend<T>(xs: seq<T>, ys: seq<T>, line: T -> string)
    ensures Lines(xs + ys, line) == Lines(xs, line) + Lines(ys, line)
  {
    if xs != [] {
      LinesAppend(xs[1..], ys, line);
      assert (xs + ys)[1..] == xs[1..] + ys;
    } else {
      assert xs + ys == ys;
    }
  }

  /** Given lines, each followed by a newline. */
  function Unlines(ls: seq<string>): string
  {
    if ls == [] then "" else ls[0] + "\n" + Unlines(ls[1..])
  }

  /** The lines `Lines(xs, line)` is made of: one per item, in order. */
  function LineTexts<T>(xs: seq<T>, line: T -> string): (r: seq<string>)
    ensures |r| == |xs|
    ensures forall i :: 0 <= i < |xs| ==> r[i] == line(xs[i])
    ensures Unlines(r) == Lines(xs, line)
  {
    if xs == [] then []
    else
      var rest := LineTexts(xs[1..], line);
      var r := [line(xs[0])] + rest;
      assert r[1..] == rest;
      r
  }

  /** Decimal digits of a number, as `str(n)`. */
  function NatToString(n: nat): (r: string)
    ensures |r| > 0 && forall i :: 0 <= i < |r| ==> '0' <= r[i] <= '9'
  {
    if n < 10 then [DigitChar(n)] else NatToString(n / 10) + [DigitChar(n % 10)]
  }

  function DigitChar(d: nat): (c: char)
    requires d < 10
    ensures '0' <= c <= '9'
  {
    ['0', '1', '2', '3', '4', '5', '6', '7', '8', '9'][d]
  }

  /** `s.replace(c, r)` for a one-character pattern `c`. */
  function Replace(s: string, c: char, r: string): string
  {
    if s == [] then "" else (if s[0] == c then r else [s[0]]) + Replace(s[1..], c, r)
  }

  lemma {:induction false} ReplaceAppend(a: string, b: string, c: char, r: string)
    ensures Replace(a + b, c, r) == Replace(a, c, r) + Replace(b, c, r)
  {
    if a == [] {
      assert a + b == b;
    } else {
      var ab := a + b;
      assert ab[0] == a[0] && ab[1..] == a[1..] + b;
      var head := if a[0] == c then r else [a[0]];
      assert Replace(ab, c, r) == head + Replace(a[1..] + b, c, r);
      assert Replace(a, c, r) == head + Replace(a[1..], c, r);
      ReplaceAppend(a[1..], b, c, r);
    }
  }

  // ---------------------------------------------------------------------------
  // Ordering of names (Python compares strings by code point)
  // ---------------------------------------------------------------------------

  /** `a <= b` on Python strings: lexicographic by code point, a prefix first. */
  predicate LexLe(a: string, b: string)
    decreases |a|
  {
    |a| == 0 || (|b| > 0 && (a[0] < b[0] || (a[0] == b[0] && LexLe(a[1..], b[1..]))))
  }

  lemma {:induction false} LexLeTotal(a: string, b: string)
    ensures LexLe(a, b) || LexLe(b, a)
    decreases |a|
  {
    if |a| > 0 && |b| > 0 && a[0] == b[0] {
      LexLeTotal(a[1..], b[1..]);
    }
  }

  lemma {:induction false} LexLeTrans(a: string, b: string, c: string)
    requires LexLe(a, b) && LexLe(b, c)
    ensures LexLe(a, c)
    decreases |a|
  {
    if |a| > 0 && a[0] == b[0] && b[0] == c[0] {
      LexLeTrans(a[1..], b[1..], c[1..]);
    }
  }

  lemma {:induction false} LexLeAntisymmetric(a: string, b: string)
    requires LexLe(a, b) && LexLe(b, a)
    ensures a == b
    decreases |a|
  {
    if |a| > 0 {
      LexLeAntisymmetric(a[1..], b[1..]);
      assert a == [a[0]] + a[1..] && b == [b[0]] + b[1..];
    }
  }

  /** Python's `max(names)`: the greatest name by code-point order. */
  function MaxName(names: seq<string>): (r: string)
    requires |names| > 0
    ensures r in names
    ensures forall i :: 0 <= i < |names| ==> LexLe(names[i], r)
    decreases |names|
  {
    if |names| == 1 then
      assert LexLe(names[0], names[0]) by { LexLeTotal(names[0], names[0]); }
      names[0]
    else
      var m := MaxName(names[1..]);
      if LexLe(names[0], m) then m
      else
        LexLeTotal(names[0], m);
        assert forall i :: 1 <= i < |names| ==> LexLe(names[i], names[0]) by {
          forall i | 1 <= i < |names| ensures LexLe(names[i], names[0]) {
            assert names[i] == names[1..][i - 1];
            LexLeTrans(names[i], m, names[0]);
          }
        }
        assert LexLe(names[0], names[0]) by { LexLeTotal(names[0], names[0]); }
        names[0]
  }

  // ---------------------------------------------------------------------------
  // Picking the latest session directory
  // ---------------------------------------------------------------------------

  /** One entry of a directory listing. */
  datatype DirEntry = DirEntry(name: string, isDir: bool)

  predicate IsSessionDir(e: DirEntry)
  {
    e.isDir && StartsWith(e.name, "session_")
  }

  /** The names of the session directories, in listing order. */
  function SessionNames(es: seq<DirEntry>): (r: seq<string>)
    ensures forall n :: n in r <==> exists i :: 0 <= i < |es| && IsSessionDir(es[i]) && es[i].name == n
    decreases |es|
  {
    if es == [] then []
    else
      var rest := SessionNames(es[1..]);
      assert forall i :: 1 <= i < |es| ==> es[i] == es[1..][i - 1];
      if IsSessionDir(es[0]) then [es[0].name] + rest else rest
  }

  /** The newest session: the greatest name among the listed directories whose name starts
      with `session_`. `base` is `None` when the transcript root is not a directory. */
  function LatestSession(base: Option<seq<DirEntry>>): (r: Option<string>)
    ensures base.None? ==> r.None?
    ensures base.Some? ==>
      (r.None? <==> forall i :: 0 <= i < |base.value| ==> !IsSessionDir(base.value[i]))
    ensures r.Some? ==> (
      && base.Some?
      && (exists i :: 0 <= i < |base.value| && IsSessionDir(base.value[i]) && base.value[i].name == r.value)
      && (forall i :: 0 <= i < |base.value| && IsSessionDir(base.value[i]) ==> LexLe(base.value[i].name, r.value)))
  {
    match base
    case None => None
    case Some(es) =>
      var names := SessionNames(es);
      if names == [] then
        assert forall i :: 0 <= i < |es| ==> es[i].name !in names;
        None
      else
        var m := MaxName(names);
        assert forall i :: 0 <= i < |es| && IsSessionDir(es[i]) ==> LexLe(es[i].name, m) by {
          forall i | 0 <= i < |es| && IsSessionDir(es[i]) ensures LexLe(es[i].name, m) {
            assert es[i].name in names;
            var j :| 0 <= j < |names| && names[j] == es[i].name;
          }
        }
        Some(m)
  }

  // ---------------------------------------------------------------------------
  // Picking the transcript file of a session
  // ---------------------------------------------------------------------------

  /** A name matched by the pattern `transcript_chunks_*.json`. The prefix ends in `_` and
      the suffix begins with `.`, so the two can never overlap and the glob and the
      `startswith`/`endswith` test accept the same names. */
  predicate IsChunkFile(name: string)
  {
    StartsWith(name, "transcript_chunks_") && EndsWith(name, ".json")
  }

  /** The first chunk file of a listing, in listing order. */
  function FirstChunkFile(files: seq<string>): (r: Option<string>)
    ensures r.None? <==> forall i :: 0 <= i < |files| ==> !IsChunkFile(files[i])
    ensures r.Some? ==> exists i :: (0 <= i < |files| && files[i] == r.value && IsChunkFile(files[i]) &&
                                     forall j :: 0 <= j < i ==> !IsChunkFile(files[j]))
    decreases |files|
  {
    if files == [] then None
    else if IsChunkFile(files[0]) then Some(files[0])
    else
      var r := FirstChunkFile(files[1..]);
      assert forall i :: 1 <= i < |files| ==> files[i] == files[1..][i - 1];
      if r.Some? then
        var k :| (0 <= k < |files[1..]| && files[1..][k] == r.value && IsChunkFile(files[1..][k]) &&
                  forall j :: 0 <= j < k ==> !IsChunkFile(files[1..][j]));
        assert files[k + 1] == r.value;
        r
      else r
  }

  /** The segment a record yields before the watermark test: none when its timestamp is
      missing or empty, its text is missing, or its timestamp does not parse. An empty
      text is still a segment. */
  function Candidate(it: Item, parseIso: string -> Option<real>): (r: Option<Segment>)
    requires it.Record?
    ensures r.Some? <==>
      it.timestamp.Some? && it.timestamp.value != "" && it.rawTranscript.Some? &&
      parseIso(it.timestamp.value).Some?
    ensures r.Some? ==>
      && Some(r.value.start) == parseIso(it.timestamp.value)
      && r.value.text == it.rawTranscript.value
      && r.value.chunkId == it.chunkId
      && r.value.timestamp == it.timestamp.value
  {
    if it.timestamp.None? || it.timestamp.value == "" || it.rawTranscript.None? then None
    else
      match parseIso(it.timestamp.value)
      case None => None
      case Some(t) => Some(Segment(t, it.rawTranscript.value, it.chunkId, it.timestamp.value))
  }
}
