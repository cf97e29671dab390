/** The transcript monitor worker: reads the records of the newest session's transcript
    file, keeps those newer than the persisted watermark, hands them downstream in
    batches of at most 50, and advances the watermark only when a hand-off succeeds.

    The decoded records are given as a sequence, ISO-8601 parsing (`fromisoformat` then
    `timestamp`) and float parsing as functions that may fail, and the outcome of the
    n-th queue `put` of a poll as `putOk(n)`. */
module TranscriptMonitor {
  import opened Common

  /** A pending list this long is flushed at once. */
  const FlushThreshold: nat := 50
  /** `architecture.transcript_buffer_size` when the configuration does not set it. */
  const DefaultBufferSize: nat := 100

  function BufferSize(configured: Option<nat>): (n: nat)
    ensures configured.Some? ==> n == configured.value
    ensures configured.None? ==> n == 100
  {
    match configured
    case Some(n) => n
    case None => DefaultBufferSize
  }

  /** The watermark read at start-up: 0.0 when the file is missing, unreadable, blank,
      or does not hold a number; otherwise the number it holds. */
  function LoadLastProcessedTime(file: WatermarkFile, parseFloat: string -> Option<real>): (t: real)
    ensures (file.Missing? || file.Unreadable?) ==> t == 0.0
    ensures file.Text? && Strip(file.content) == "" ==> t == 0.0
    ensures file.Text? && Strip(file.content) != "" ==>
      t == (match parseFloat(Strip(file.content)) case Some(v) => v case None => 0.0)
  {
    match file
    case Missing => 0.0
    case Unreadable => 0.0
    case Text(content) =>
      var s := Strip(content);
      if s == "" then 0.0
      else match parseFloat(s)
        case Some(v) => v
        case None => 0.0
  }

  /** The newest transcript file: the first chunk file, in listing order, of the newest
      session; `None` when there is no session directory or the newest one holds no
      chunk file. */
  function LocateTranscript(base: Option<seq<DirEntry>>, filesIn: string -> seq<string>): (r: Option<(string, string)>)
    ensures r.Some? <==> LatestSession(base).Some? && FirstChunkFile(filesIn(LatestSession(base).value)).Some?
    ensures r.Some? ==>
      && r.value.0 == LatestSession(base).value
      && IsChunkFile(r.value.1) && r.value.1 in filesIn(r.value.0)
      && r.value.1 == FirstChunkFile(filesIn(r.value.0)).value
  {
    match LatestSession(base)
    case None => None
    case Some(session) =>
      match FirstChunkFile(filesIn(session))
      case None => None
      case Some(f) => Some((session, f))
  }

  /** The greatest start of a non-empty list of segments. */
  function MaxStart(segs: seq<Segment>): (m: real)
    requires segs != []
    ensures exists i :: 0 <= i < |segs| && segs[i].start == m
    ensures forall i :: 0 <= i < |segs| ==> segs[i].start <= m
    decreases |segs|
  {
    if |segs| == 1 then segs[0].start
    else
      var r := MaxStart(segs[1..]);
      assert forall i :: 1 <= i < |segs| ==> segs[i] == segs[1..][i - 1];
      if segs[0].start >= r then segs[0].start else r
  }

  function Max(a: real, b: real): real { if a >= b then a else b }

  lemma {:induction false} MaxStartAppend(p: seq<Segment>, x: Segment)
    ensures MaxStart(p + [x]) == if p == [] then x.start else Max(MaxStart(p), x.start)
    decreases |p|
  {
    if |p| > 1 {
      assert (p + [x])[1..] == p[1..] + [x];
      MaxStartAppend(p[1..], x);
    }
  }

  // ---------------------------------------------------------------------------
  // One poll, as a function of the watermark, the ring buffer and the records
  // ---------------------------------------------------------------------------

  /** One `put` of a batch on the transcript queue and whether it succeeded. */
  datatype Attempt = Attempt(batch: Batch, delivered: bool)

  /** The bookkeeping of a poll in progress: the watermark in effect, the pending list,
      the ring buffer, every segment accepted so far, and every flush so far. */
  datatype Scan = Scan(watermark: real, pending: seq<Segment>, recent: seq<Segment>,
                       accepted: seq<Segment>, attempts: seq<Attempt>)

  /** The batches that reached the queue, in order. */
  function Delivered(attempts: seq<Attempt>): (bs: seq<Batch>)
    ensures |bs| <= |attempts|
    ensures forall b :: b in bs ==> exists a :: a in attempts && a.delivered && a.batch == b
  {
    if attempts == [] then []
    else (if attempts[0].delivered then [attempts[0].batch] else []) + Delivered(attempts[1..])
  }

  lemma {:induction false} DeliveredAppend(xs: seq<Attempt>, a: Attempt)
    ensures Delivered(xs + [a]) == Delivered(xs) + (if a.delivered then [a.batch] else [])
  {
    if xs != [] {
      assert (xs + [a])[1..] == xs[1..] + [a];
      DeliveredAppend(xs[1..], a);
    } else {
      assert Delivered([a][1..]) == [];
    }
  }

  /** No batch reached the queue exactly when no attempt succeeded. */
  lemma {:induction false} DeliveredEmpty(xs: seq<Attempt>)
    ensures Delivered(xs) == [] <==> forall k :: 0 <= k < |xs| ==> !xs[k].delivered
  {
    if xs != [] {
      DeliveredEmpty(xs[1..]);
      assert forall k :: 1 <= k < |xs| ==> xs[k] == xs[1..][k - 1];
    }
  }

  /** The segments of all flushed batches, in flush order. */
  function Flushed(attempts: seq<Attempt>): seq<Segment>
  {
    if attempts == [] then [] else attempts[0].batch.segments + Flushed(attempts[1..])
  }

  lemma {:induction false} FlushedAppend(xs: seq<Attempt>, a: Attempt)
    ensures Flushed(xs + [a]) == Flushed(xs) + a.batch.segments
  {
    if xs != [] {
      assert (xs + [a])[1..] == xs[1..] + [a];
      FlushedAppend(xs[1..], a);
    } else {
      assert Flushed([a][1..]) == [];
    }
  }

  /** `flush_segments`: a non-empty pending list becomes a batch; if the `put` succeeds
      the watermark moves to the batch's greatest start, otherwise the batch is dropped
      and the watermark stays. The pending list is emptied either way. */
  function Flush(sc: Scan, ok: bool): (r: Scan)
    ensures sc.pending == [] ==> r == sc
    ensures sc.pending != [] ==>
      && r.pending == [] && r.recent == sc.recent && r.accepted == sc.accepted
      && r.attempts == sc.attempts + [Attempt(Batch(sc.pending, |sc.pending|), ok)]
      && r.watermark == (if ok then MaxStart(sc.pending) else sc.watermark)
  {
    if sc.pending == [] then sc
    else
      sc.(watermark := if ok then MaxStart(sc.pending) else sc.watermark,
          pending := [],
          attempts := sc.attempts + [Attempt(Batch(sc.pending, |sc.pending|), ok)])
  }

  /** A candidate segment meets the watermark in effect: accepted only if its start is
      strictly greater; an accepted segment joins the pending list and the ring buffer,
      and a pending list that reaches 50 is flushed with the next `put` outcome. */
  function Offer(sc: Scan, seg: Segment, cap: nat, putOk: nat -> bool): (r: Scan)
    requires |sc.recent| <= cap
    ensures |r.recent| <= cap
  {
    if seg.start > sc.watermark then
      var sc1 := Accept(sc, seg, cap);
      if |sc1.pending| >= FlushThreshold then Flush(sc1, putOk(|sc1.attempts|)) else sc1
    else sc
  }

  /** An accepted segment joins the pending list, the ring buffer and the accepted list. */
  function Accept(sc: Scan, seg: Segment, cap: nat): (r: Scan)
    requires |sc.recent| <= cap
    ensures |r.recent| <= cap
  {
    sc.(pending := sc.pending + [seg],
        recent := DequeAppend(sc.recent, seg, cap),
        accepted := sc.accepted + [seg])
  }

  /** One record that is a JSON object: its candidate segment, if any, is offered. */
  function Step(sc: Scan, it: Item, cap: nat, parseIso: string -> Option<real>,
                putOk: nat -> bool): (r: Scan)
    requires it.Record? && |sc.recent| <= cap
    ensures |r.recent| <= cap
  {
    match Candidate(it, parseIso)
    case None => sc
    case Some(seg) => Offer(sc, seg, cap, putOk)
  }

  /** The records of one poll, in file order. A record that is not a JSON object raises,
      which ends the poll (the second component is then `true`). */
  function ScanItems(sc: Scan, items: seq<Item>, cap: nat, parseIso: string -> Option<real>,
                     putOk: nat -> bool): (r: (Scan, bool))
    requires |sc.recent| <= cap
    ensures |r.0.recent| <= cap
    decreases |items|
  {
    if items == [] then (sc, false)
    else if items[0].NonRecord? then (sc, true)
    else ScanItems(Step(sc, items[0], cap, parseIso, putOk), items[1..], cap, parseIso, putOk)
  }

  /** `process_new_segments` on the records of a transcript file: scan, then flush the
      remainder. When the poll raises, the remainder is lost. */
  function Poll(watermark: real, recent: seq<Segment>, items: seq<Item>, cap: nat,
                parseIso: string -> Option<real>, putOk: nat -> bool): (r: (Scan, bool))
    requires |recent| <= cap
  {
    var (sc, crashed) := ScanItems(Scan(watermark, [], recent, [], []), items, cap, parseIso, putOk);
    if crashed then (sc, true) else (Flush(sc, putOk(|sc.attempts|)), false)
  }

  // ---------------------------------------------------------------------------
  // Invariants of a poll
  // ---------------------------------------------------------------------------

  predicate GoodBatch(b: Batch)
  {
    1 <= |b.segments| <= FlushThreshold && b.count == |b.segments|
  }

  /** What holds between two records of a poll: every pending segment is above the
      watermark, fewer than 50 are pending, every flushed batch is well formed, and the
      flushed batches followed by the pending list are exactly the accepted segments. */
  ghost predicate Inv(sc: Scan, cap: nat)
  {
    && |sc.recent| <= cap
    && (forall k :: 0 <= k < |sc.pending| ==> sc.pending[k].start > sc.watermark)
    && |sc.pending| < FlushThreshold
    && (forall k :: 0 <= k < |sc.attempts| ==> GoodBatch(sc.attempts[k].batch))
    && Flushed(sc.attempts) + sc.pending == sc.accepted
  }

  /** Accepted segments and attempts have only been appended to. */
  ghost predicate Grows(a: Scan, b: Scan)
  {
    a.accepted <= b.accepted && a.attempts <= b.attempts
  }

  /** The ring buffer is the last `cap` of the earlier one followed by the new segments. */
  ghost predicate RecentFollows(a: Scan, b: Scan, cap: nat)
    requires Grows(a, b)
  {
    b.recent == LastN(a.recent + b.accepted[|a.accepted|..], cap)
  }

  /** The new attempts used the next `put` outcomes. */
  ghost predicate UsesPuts(a: Scan, b: Scan, putOk: nat -> bool)
  {
    forall k :: |a.attempts| <= k < |b.attempts| ==> b.attempts[k].delivered == putOk(k)
  }

  /** The watermark has not moved back, and has not moved at all unless a new attempt
      succeeded. */
  ghost predicate WatermarkMoves(a: Scan, b: Scan)
  {
    && b.watermark >= a.watermark
    && ((forall k :: |a.attempts| <= k < |b.attempts| ==> !b.attempts[k].delivered) ==>
          b.watermark == a.watermark)
  }

  /** The new accepted segments start above the earlier watermark. */
  ghost predicate NewAbove(a: Scan, b: Scan)
  {
    forall k :: |a.accepted| <= k < |b.accepted| ==> b.accepted[k].start > a.watermark
  }

  /** How a later state of a poll relates to an earlier one. */
  ghost predicate Extends(a: Scan, b: Scan, cap: nat, putOk: nat -> bool)
  {
    && Grows(a, b) && RecentFollows(a, b, cap) && UsesPuts(a, b, putOk)
    && WatermarkMoves(a, b) && NewAbove(a, b)
  }

  lemma ExtendsRefl(a: Scan, cap: nat, putOk: nat -> bool)
    requires |a.recent| <= cap
    ensures Extends(a, a, cap, putOk)
  {
    assert a.accepted[|a.accepted|..] == [];
    assert a.recent + [] == a.recent;
  }

  lemma RecentTrans(a: Scan, b: Scan, c: Scan, cap: nat)
    requires Grows(a, b) && Grows(b, c)
    requires RecentFollows(a, b, cap) && RecentFollows(b, c, cap)
    ensures Grows(a, c) && RecentFollows(a, c, cap)
  {
    var ab := b.accepted[|a.accepted|..];
    var bc := c.accepted[|b.accepted|..];
    assert c.accepted[|a.accepted|..] == ab + bc by {
      assert c.accepted == a.accepted + ab + bc;
    }
    LastNAppend(a.recent + ab, bc, cap);
    assert a.recent + ab + bc == a.recent + (ab + bc);
  }

  lemma UsesPutsTrans(a: Scan, b: Scan, c: Scan, putOk: nat -> bool)
    requires Grows(a, b) && Grows(b, c)
    requires UsesPuts(a, b, putOk) && UsesPuts(b, c, putOk)
    ensures UsesPuts(a, c, putOk)
  {
    forall k | |a.attempts| <= k < |c.attempts|
      ensures c.attempts[k].delivered == putOk(k)
    {
      if k < |b.attempts| {
        assert c.attempts[k] == b.attempts[k];
      }
    }
  }

  lemma WatermarkTrans(a: Scan, b: Scan, c: Scan)
    requires Grows(a, b) && Grows(b, c)
    requires WatermarkMoves(a, b) && WatermarkMoves(b, c)
    ensures WatermarkMoves(a, c)
  {
    if forall k :: |a.attempts| <= k < |c.attempts| ==> !c.attempts[k].delivered {
      forall k | |a.attempts| <= k < |b.attempts|
        ensures !b.attempts[k].delivered
      {
        assert c.attempts[k] == b.attempts[k];
      }
    }
  }

  lemma NewAboveTrans(a: Scan, b: Scan, c: Scan)
    requires Grows(a, b) && Grows(b, c)
    requires b.watermark >= a.watermark
    requires NewAbove(a, b) && NewAbove(b, c)
    ensures NewAbove(a, c)
  {
    forall k | |a.accepted| <= k < |c.accepted|
      ensures c.accepted[k].start > a.watermark
    {
      if k < |b.accepted| {
        assert c.accepted[k] == b.accepted[k];
      }
    }
  }

  lemma ExtendsTrans(a: Scan, b: Scan, c: Scan, cap: nat, putOk: nat -> bool)
    requires Extends(a, b, cap, putOk) && Extends(b, c, cap, putOk)
    ensures Extends(a, c, cap, putOk)
  {
    RecentTrans(a, b, c, cap);
    UsesPutsTrans(a, b, c, putOk);
    WatermarkTrans(a, b, c);
    NewAboveTrans(a, b, c);
  }

  /** Flushing a pending list that sits above the watermark and is delivered moves the
      watermark strictly forward. */
  lemma FlushAdvances(sc: Scan)
    requires sc.pending != []
    requires forall k :: 0 <= k < |sc.pending| ==> sc.pending[k].start > sc.watermark
    ensures Flush(sc, true).watermark > sc.watermark
    ensures Flush(sc, false).watermark == sc.watermark
  {
    var m := MaxStart(sc.pending);
    assert sc.pending[0].start <= m;
  }

  /** Accepting a segment above the watermark keeps the invariant, except that the
      pending list may have reached 50. */
  lemma AcceptInv(sc: Scan, seg: Segment, cap: nat, putOk: nat -> bool)
    requires Inv(sc, cap) && seg.start > sc.watermark
    ensures var r := Accept(sc, seg, cap);
      && (forall k :: 0 <= k < |r.pending| ==> r.pending[k].start > r.watermark)
      && |r.pending| <= FlushThreshold
      && (forall k :: 0 <= k < |r.attempts| ==> GoodBatch(r.attempts[k].batch))
      && Flushed(r.attempts) + r.pending == r.accepted
      && Extends(sc, r, cap, putOk)
  {
    var r := Accept(sc, seg, cap);
    DequeAppendIsLastN(sc.recent, seg, cap);
    assert r.accepted[|sc.accepted|..] == [seg];
  }

  /** Flushing a pending list of at most 50 restores the invariant. */
  lemma FlushInv(sc: Scan, cap: nat, putOk: nat -> bool)
    requires |sc.recent| <= cap
    requires forall k :: 0 <= k < |sc.pending| ==> sc.pending[k].start > sc.watermark
    requires |sc.pending| <= FlushThreshold
    requires forall k :: 0 <= k < |sc.attempts| ==> GoodBatch(sc.attempts[k].batch)
    requires Flushed(sc.attempts) + sc.pending == sc.accepted
    ensures var r := Flush(sc, putOk(|sc.attempts|));
      && r.pending == [] && Inv(r, cap) && Extends(sc, r, cap, putOk)
  {
    var ok := putOk(|sc.attempts|);
    var r := Flush(sc, ok);
    assert sc.accepted[|sc.accepted|..] == [];
    assert sc.recent + [] == sc.recent;
    if sc.pending != [] {
      FlushedAppend(sc.attempts, Attempt(Batch(sc.pending, |sc.pending|), ok));
      FlushAdvances(sc);
      assert r.attempts[|sc.attempts|].delivered == ok;
    } else {
      assert Flushed(r.attempts) + r.pending == r.accepted;
    }
  }

  lemma OfferInv(sc: Scan, seg: Segment, cap: nat, putOk: nat -> bool)
    requires Inv(sc, cap)
    ensures var r := Offer(sc, seg, cap, putOk);
      && Inv(r, cap)
      && Extends(sc, r, cap, putOk)
      && r.accepted == sc.accepted + (if seg.start > sc.watermark then [seg] else [])
  {
    if seg.start > sc.watermark {
      var sc1 := Accept(sc, seg, cap);
      AcceptInv(sc, seg, cap, putOk);
      if |sc1.pending| >= FlushThreshold {
        FlushInv(sc1, cap, putOk);
        ExtendsTrans(sc, sc1, Flush(sc1, putOk(|sc1.attempts|)), cap, putOk);
      }
    } else {
      ExtendsRefl(sc, cap, putOk);
    }
  }

  lemma StepInv(sc: Scan, it: Item, cap: nat, parseIso: string -> Option<real>, putOk: nat -> bool)
    requires it.Record? && Inv(sc, cap)
    ensures Inv(Step(sc, it, cap, parseIso, putOk), cap)
    ensures Extends(sc, Step(sc, it, cap, parseIso, putOk), cap, putOk)
  {
    match Candidate(it, parseIso)
    case None => ExtendsRefl(sc, cap, putOk);
    case Some(seg) => OfferInv(sc, seg, cap, putOk);
  }

  /** The invariant holds and the state only extends, record after record of a scan,
      whether or not it ends by raising. */
  lemma {:induction false} ScanItemsInv(sc: Scan, items: seq<Item>, cap: nat,
                                        parseIso: string -> Option<real>, putOk: nat -> bool)
    requires Inv(sc, cap)
    ensures Inv(ScanItems(sc, items, cap, parseIso, putOk).0, cap)
    ensures Extends(sc, ScanItems(sc, items, cap, parseIso, putOk).0, cap, putOk)
    decreases |items|
  {
    if items == [] || items[0].NonRecord? {
      ExtendsRefl(sc, cap, putOk);
    } else {
      var sc1 := Step(sc, items[0], cap, parseIso, putOk);
      StepInv(sc, items[0], cap, parseIso, putOk);
      ScanItemsInv(sc1, items[1..], cap, parseIso, putOk);
      ExtendsTrans(sc, sc1, ScanItems(sc1, items[1..], cap, parseIso, putOk).0, cap, putOk);
    }
  }

  /** The properties of a whole poll that ends normally. The watermark never moves back,
      and it moves only when a batch reaches the queue. Every flushed batch holds 1 to 50
      segments with `count` equal to its length. The flushed batches, in order, are
      exactly the accepted segments, and each of those starts above the starting
      watermark. The ring buffer ends as the last `cap` of what it held plus what was
      accepted. */
  lemma PollProperties(wm: real, recent: seq<Segment>, items: seq<Item>, cap: nat,
                       parseIso: string -> Option<real>, putOk: nat -> bool)
    requires |recent| <= cap
    requires !Poll(wm, recent, items, cap, parseIso, putOk).1
    ensures var r := Poll(wm, recent, items, cap, parseIso, putOk).0;
      && r.pending == []
      && r.watermark >= wm
      && (Delivered(r.attempts) == [] ==> r.watermark == wm)
      && (forall k :: 0 <= k < |r.attempts| ==> GoodBatch(r.attempts[k].batch))
      && Flushed(r.attempts) == r.accepted
      && (forall k :: 0 <= k < |r.accepted| ==> r.accepted[k].start > wm)
      && r.recent == LastN(recent + r.accepted, cap)
  {
    var sc0 := Scan(wm, [], recent, [], []);
    ScanItemsInv(sc0, items, cap, parseIso, putOk);
    var sc := ScanItems(sc0, items, cap, parseIso, putOk).0;
    var r := Flush(sc, putOk(|sc.attempts|));
    FlushInv(sc, cap, putOk);
    ExtendsTrans(sc0, sc, r, cap, putOk);
    DeliveredEmpty(r.attempts);
    assert r.accepted[0..] == r.accepted;
    assert Flushed(r.attempts) + [] == Flushed(r.attempts);
  }

  /** A poll, ending normally or not, never moves the watermark back. */
  lemma PollWatermark(wm: real, recent: seq<Segment>, items: seq<Item>, cap: nat,
                      parseIso: string -> Option<real>, putOk: nat -> bool)
    requires |recent| <= cap
    ensures Poll(wm, recent, items, cap, parseIso, putOk).0.watermark >= wm
  {
    var sc0 := Scan(wm, [], recent, [], []);
    ScanItemsInv(sc0, items, cap, parseIso, putOk);
    var sc := ScanItems(sc0, items, cap, parseIso, putOk).0;
    if sc.pending != [] {
      FlushAdvances(sc);
    }
  }

  // ---------------------------------------------------------------------------
  // Re-polling the same records
  // ---------------------------------------------------------------------------

  /** The watermark a state reaches once its pending list is delivered. */
  function Reach(sc: Scan): real
  {
    if sc.pending == [] then sc.watermark else Max(sc.watermark, MaxStart(sc.pending))
  }

  predicate AllRecords(items: seq<Item>)
  {
    forall k :: 0 <= k < |items| ==> items[k].Record?
  }

  /** With every `put` succeeding, one record never lowers the reachable watermark and
      its candidate, if any, lies at or below it. */
  lemma StepReach(sc: Scan, it: Item, cap: nat, parseIso: string -> Option<real>, putOk: nat -> bool)
    requires it.Record? && Inv(sc, cap)
    requires forall n :: putOk(n)
    ensures Reach(Step(sc, it, cap, parseIso, putOk)) >= Reach(sc)
    ensures Candidate(it, parseIso).Some? ==>
      Candidate(it, parseIso).value.start <= Reach(Step(sc, it, cap, parseIso, putOk))
  {
    if Candidate(it, parseIso).Some? {
      var seg := Candidate(it, parseIso).value;
      if seg.start > sc.watermark {
        var p := sc.pending + [seg];
        MaxStartAppend(sc.pending, seg);
        if sc.pending != [] {
          assert sc.pending[0].start <= MaxStart(sc.pending);
        }
      }
    }
  }

  /** With every `put` succeeding, no candidate of the scanned records starts after the
      watermark the scan can reach, and a scan of records only raises on a non-object. */
  lemma {:induction false} ScanCovers(sc: Scan, items: seq<Item>, cap: nat,
                                      parseIso: string -> Option<real>, putOk: nat -> bool)
    requires Inv(sc, cap) && AllRecords(items)
    requires forall n :: putOk(n)
    ensures var r := ScanItems(sc, items, cap, parseIso, putOk);
      && !r.1
      && Reach(r.0) >= Reach(sc)
      && (forall k :: 0 <= k < |items| && Candidate(items[k], parseIso).Some? ==>
            Candidate(items[k], parseIso).value.start <= Reach(r.0))
    decreases |items|
  {
    if items != [] {
      var sc1 := Step(sc, items[0], cap, parseIso, putOk);
      StepReach(sc, items[0], cap, parseIso, putOk);
      StepInv(sc, items[0], cap, parseIso, putOk);
      assert forall k :: 1 <= k < |items| ==> items[k] == items[1..][k - 1];
      ScanCovers(sc1, items[1..], cap, parseIso, putOk);
    }
  }

  /** A scan starting from a watermark no candidate exceeds accepts nothing and changes
      nothing. */
  lemma {:induction false} ScanNothing(sc: Scan, items: seq<Item>, cap: nat,
                                       parseIso: string -> Option<real>, putOk: nat -> bool)
    requires |sc.recent| <= cap && AllRecords(items)
    requires forall k :: 0 <= k < |items| && Candidate(items[k], parseIso).Some? ==>
      Candidate(items[k], parseIso).value.start <= sc.watermark
    ensures ScanItems(sc, items, cap, parseIso, putOk) == (sc, false)
    decreases |items|
  {
    if items != [] {
      assert forall k :: 1 <= k < |items| ==> items[k] == items[1..][k - 1];
      ScanNothing(sc, items[1..], cap, parseIso, putOk);
    }
  }

  /** With every `put` succeeding, a poll of well-formed records ends normally, every
      batch it flushed was delivered, and no candidate starts after its new watermark. */
  lemma PollCovers(wm: real, recent: seq<Segment>, items: seq<Item>, cap: nat,
                   parseIso: string -> Option<real>, putOk: nat -> bool)
    requires |recent| <= cap && AllRecords(items)
    requires forall n :: putOk(n)
    ensures var first := Poll(wm, recent, items, cap, parseIso, putOk);
      && !first.1
      && (forall k :: 0 <= k < |first.0.attempts| ==> first.0.attempts[k].delivered)
      && (forall k :: 0 <= k < |items| && Candidate(items[k], parseIso).Some? ==>
            Candidate(items[k], parseIso).value.start <= first.0.watermark)
  {
    var sc0 := Scan(wm, [], recent, [], []);
    ScanItemsInv(sc0, items, cap, parseIso, putOk);
    ScanCovers(sc0, items, cap, parseIso, putOk);
    var sc := ScanItems(sc0, items, cap, parseIso, putOk).0;
    assert putOk(|sc.attempts|);
    FlushReach(sc, cap);
    var first := Flush(sc, true);
    forall k | 0 <= k < |first.attempts|
      ensures first.attempts[k].delivered
    {
      if k < |sc.attempts| {
        assert first.attempts[k] == sc.attempts[k];
      }
    }
  }

  /** A delivered flush moves the watermark to the one the state can reach. */
  lemma FlushReach(sc: Scan, cap: nat)
    requires Inv(sc, cap)
    ensures Flush(sc, true).watermark == Reach(sc)
  {
    if sc.pending != [] {
      assert sc.pending[0].start <= MaxStart(sc.pending);
    }
  }

  /** Idempotence of a re-poll: after a poll of well-formed records in which every
      `put` succeeded, no batch was dropped and a second poll of the same records from
      the new watermark accepts nothing, flushes nothing and changes nothing. */
  lemma RePollAcceptsNothing(wm: real, recent: seq<Segment>, items: seq<Item>, cap: nat,
                             parseIso: string -> Option<real>, putOk: nat -> bool)
    requires |recent| <= cap && AllRecords(items)
    requires forall n :: putOk(n)
    ensures var first := Poll(wm, recent, items, cap, parseIso, putOk);
      && !first.1
      && (forall k :: 0 <= k < |first.0.attempts| ==> first.0.attempts[k].delivered)
      && var second := Poll(first.0.watermark, first.0.recent, items, cap, parseIso, putOk);
      && !second.1
      && second.0.accepted == [] && second.0.attempts == []
      && second.0.watermark == first.0.watermark && second.0.recent == first.0.recent
  {
    PollCovers(wm, recent, items, cap, parseIso, putOk);
    var first := Poll(wm, recent, items, cap, parseIso, putOk).0;
    var s2 := Scan(first.watermark, [], first.recent, [], []);
    ScanNothing(s2, items, cap, parseIso, putOk);
  }

  // ---------------------------------------------------------------------------
  // The worker
  // ---------------------------------------------------------------------------

  /** What `process_new_segments` returns: nothing to read (no session or no chunk file),
      an exception raised by a record that is not an object, or the number of records
      read. */
  datatype PollOutcome = NoTranscript | Crashed | Processed(count: nat)

  class Monitor {
    const maxBufferSize: nat
    /** The watermark in memory. */
    var lastProcessedTime: real
    /** The ring buffer of recently accepted segments. */
    var recentSegments: seq<Segment>
    /** Every batch `put` on the transcript queue. */
    var outputQueue: seq<Batch>
    /** What the last successful flush wrote to the watermark file. */
    var savedWatermark: Option<real>
    /** The `last_processed` and `total_segments` entries this worker wrote to the
        shared state. */
    var sharedLastProcessed: Option<real>
    var sharedTotalSegments: Option<nat>

    ghost predicate Valid()
      reads this
    {
      |recentSegments| <= maxBufferSize
    }

    constructor (file: WatermarkFile, parseFloat: string -> Option<real>, configuredBufferSize: Option<nat>)
      ensures Valid()
      ensures lastProcessedTime == LoadLastProcessedTime(file, parseFloat)
      ensures maxBufferSize == BufferSize(configuredBufferSize)
      ensures recentSegments == [] && outputQueue == []
      ensures savedWatermark == None && sharedLastProcessed == None && sharedTotalSegments == None
    {
      maxBufferSize := BufferSize(configuredBufferSize);
      lastProcessedTime := LoadLastProcessedTime(file, parseFloat);
      recentSegments := [];
      outputQueue := [];
      savedWatermark := None;
      sharedLastProcessed := None;
      sharedTotalSegments := None;
    }

    /** `flush_segments`: on a successful `put` the batch is queued and the watermark,
        the watermark file and the shared `last_processed` move to the batch's greatest
        start; on a failed `put` nothing changes. */
    method FlushSegments(segments: seq<Segment>, putOk: bool)
      modifies this
      ensures recentSegments == old(recentSegments) && sharedTotalSegments == old(sharedTotalSegments)
      ensures segments == [] || !putOk ==>
        && lastProcessedTime == old(lastProcessedTime) && outputQueue == old(outputQueue)
        && savedWatermark == old(savedWatermark) && sharedLastProcessed == old(sharedLastProcessed)
      ensures segments != [] && putOk ==>
        && outputQueue == old(outputQueue) + [Batch(segments, |segments|)]
        && lastProcessedTime == MaxStart(segments)
        && savedWatermark == Some(lastProcessedTime) && sharedLastProcessed == Some(lastProcessedTime)
    {
      if segments == [] {
        return;
      }
      var batch := Batch(segments, |segments|);
      if putOk {
        outputQueue := outputQueue + [batch];
        var latest := MaxStart(segments);
        lastProcessedTime := latest;
        savedWatermark := Some(latest);
        sharedLastProcessed := Some(latest);
      }
    }

    /** The fields agree with a poll state `sc`, given what they held when the poll
        began (`q0`, `saved0`, `shared0`, `total0`) and the poll's local pending list
        and `put` count. */
    ghost predicate Mirrors(sc: Scan, pending: seq<Segment>, puts: nat, q0: seq<Batch>,
                            saved0: Option<real>, shared0: Option<real>, total0: Option<nat>)
      reads this
    {
      && lastProcessedTime == sc.watermark && recentSegments == sc.recent
      && pending == sc.pending && puts == |sc.attempts|
      && outputQueue == q0 + Delivered(sc.attempts)
      && (Delivered(sc.attempts) == [] ==> savedWatermark == saved0 && sharedLastProcessed == shared0)
      && (Delivered(sc.attempts) != [] ==>
            savedWatermark == Some(lastProcessedTime) && sharedLastProcessed == Some(lastProcessedTime))
      && sharedTotalSegments == total0
    }

    /** The body of the poll loop for a segment above the watermark: it joins the
        pending list and the ring buffer, and a pending list of 50 is flushed. */
    method AcceptSegment(ghost sc: Scan, pending: seq<Segment>, puts: nat, seg: Segment,
                         putOk: nat -> bool, ghost q0: seq<Batch>, ghost saved0: Option<real>,
                         ghost shared0: Option<real>, ghost total0: Option<nat>)
      returns (pending': seq<Segment>, puts': nat)
      requires Inv(sc, maxBufferSize) && Mirrors(sc, pending, puts, q0, saved0, shared0, total0)
      requires seg.start > lastProcessedTime
      modifies this
      ensures Mirrors(Offer(sc, seg, maxBufferSize, putOk), pending', puts', q0, saved0, shared0, total0)
    {
      pending' := pending + [seg];
      puts' := puts;
      recentSegments := DequeAppend(recentSegments, seg, maxBufferSize);
      ghost var sc1 := Accept(sc, seg, maxBufferSize);
      if |pending'| >= FlushThreshold {
        var ok := putOk(puts);
        DeliveredAppend(sc1.attempts, Attempt(Batch(sc1.pending, |sc1.pending|), ok));
        FlushSegments(pending', ok);
        pending' := [];
        puts' := puts + 1;
      }
    }

    /** `process_new_segments` on what reading the newest transcript file yields
        (`None` when there is no session or no chunk file). The new state is the one
        `Poll` computes, so `PollProperties` and `RePollAcceptsNothing` apply to it. */
    method ProcessNewSegments(transcript: Option<seq<Item>>, parseIso: string -> Option<real>,
                              putOk: nat -> bool) returns (outcome: PollOutcome)
      requires Valid()
      modifies this
      ensures Valid()
      ensures transcript.None? ==>
        && outcome == NoTranscript
        && lastProcessedTime == old(lastProcessedTime) && recentSegments == old(recentSegments)
        && outputQueue == old(outputQueue) && savedWatermark == old(savedWatermark)
        && sharedLastProcessed == old(sharedLastProcessed) && sharedTotalSegments == old(sharedTotalSegments)
      ensures transcript.Some? ==>
        var (r, crashed) := Poll(old(lastProcessedTime), old(recentSegments), transcript.value,
                                 maxBufferSize, parseIso, putOk);
        && lastProcessedTime == r.watermark && lastProcessedTime >= old(lastProcessedTime)
        && recentSegments == r.recent
        && outputQueue == old(outputQueue) + Delivered(r.attempts)
        && (Delivered(r.attempts) == [] ==>
              savedWatermark == old(savedWatermark) && sharedLastProcessed == old(sharedLastProcessed))
        && (Delivered(r.attempts) != [] ==>
              savedWatermark == Some(lastProcessedTime) && sharedLastProcessed == Some(lastProcessedTime))
        && (crashed ==> outcome == Crashed && sharedTotalSegments == old(sharedTotalSegments))
        && (!crashed ==> outcome == Processed(|transcript.value|) && sharedTotalSegments == Some(|recentSegments|))
    {
      if transcript.None? {
        return NoTranscript;
      }
      var items := transcript.value;
      ghost var q0, saved0, shared0, total0 := outputQueue, savedWatermark, sharedLastProcessed, sharedTotalSegments;
      ghost var sc0 := Scan(lastProcessedTime, [], recentSegments, [], []);
      PollWatermark(sc0.watermark, sc0.recent, items, maxBufferSize, parseIso, putOk);
      var crashed, pending, puts, sc := ScanRecords(items, parseIso, putOk, sc0, q0, saved0, shared0, total0);
      if crashed {
        return Crashed;
      }
      FinishPoll(sc, pending, puts, putOk, q0, saved0, shared0, total0);
      sharedTotalSegments := Some(|recentSegments|);
      return Processed(|items|);
    }

    /** The final flush of `process_new_segments`, with the next `put` outcome. */
    method FinishPoll(ghost sc: Scan, pending: seq<Segment>, puts: nat, putOk: nat -> bool,
                      ghost q0: seq<Batch>, ghost saved0: Option<real>,
                      ghost shared0: Option<real>, ghost total0: Option<nat>)
      requires Mirrors(sc, pending, puts, q0, saved0, shared0, total0)
      modifies this
      ensures Mirrors(Flush(sc, putOk(puts)), [], |Flush(sc, putOk(puts)).attempts|, q0, saved0, shared0, total0)
    {
      var ok := putOk(puts);
      if pending != [] {
        DeliveredAppend(sc.attempts, Attempt(Batch(sc.pending, |sc.pending|), ok));
        FlushSegments(pending, ok);
      }
    }

    /** The loop of `process_new_segments` over the records, in file order, until one
        raises; the fields follow the scan state `ScanItems` computes. */
    method ScanRecords(items: seq<Item>, parseIso: string -> Option<real>, putOk: nat -> bool,
                       ghost sc0: Scan, ghost q0: seq<Batch>, ghost saved0: Option<real>,
                       ghost shared0: Option<real>, ghost total0: Option<nat>)
      returns (crashed: bool, newSegments: seq<Segment>, puts: nat, ghost sc: Scan)
      requires Inv(sc0, maxBufferSize) && Mirrors(sc0, [], 0, q0, saved0, shared0, total0)
      modifies this
      ensures (sc, crashed) == ScanItems(sc0, items, maxBufferSize, parseIso, putOk)
      ensures Inv(sc, maxBufferSize) && Mirrors(sc, newSegments, puts, q0, saved0, shared0, total0)
    {
      ghost var goal := ScanItems(sc0, items, maxBufferSize, parseIso, putOk);
      sc := sc0;
      newSegments := [];
      puts := 0;
      var processed: nat := 0;
      assert items[0..] == items;
      while processed < |items|
        invariant processed <= |items|
        invariant Inv(sc, maxBufferSize)
        invariant ScanItems(sc, items[processed..], maxBufferSize, parseIso, putOk) == goal
        invariant Mirrors(sc, newSegments, puts, q0, saved0, shared0, total0)
        decreases |items| - processed
      {
        var item := items[processed];
        assert items[processed..][1..] == items[processed + 1..];
        if item.NonRecord? {
          return true, newSegments, puts, sc;
        }
        processed := processed + 1;
        var candidate := Candidate(item, parseIso);
        StepInv(sc, item, maxBufferSize, parseIso, putOk);
        if candidate.Some? && candidate.value.start > lastProcessedTime {
          newSegments, puts := AcceptSegment(sc, newSegments, puts, candidate.value, putOk,
                                             q0, saved0, shared0, total0);
        }
        sc := Step(sc, item, maxBufferSize, parseIso, putOk);
      }
      assert items[processed..] == [];
      crashed := false;
    }

    /** `cleanup_memory`: the ring buffer is emptied; the watermark and everything else
        stay. */
    method CleanupMemory()
      requires Valid()
      modifies this
      ensures Valid()
      ensures recentSegments == []
      ensures lastProcessedTime == old(lastProcessedTime) && outputQueue == old(outputQueue)
      ensures savedWatermark == old(savedWatermark) && sharedLastProcessed == old(sharedLastProcessed)
      ensures sharedTotalSegments == old(sharedTotalSegments)
    {
      recentSegments := [];
    }
  }
}
