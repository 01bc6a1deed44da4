/**
  The first fault of a file: the wire error, malformed meta event or, in strict
  mode, grammar violation that is read first. It decides every score parse
  that no budget and no 32-bit offset cuts short.
 */
module ScoreFaults {
  import opened Base
  import opened Smf
  import opened Wire
  import opened Scan
  import opened ScoreTypes
  import opened TrackModel
  import opened TrackInvariants
  import opened TrackTotals
  import opened Scores
  import opened ScoreEmission
  import opened ScoreGrammar
  import opened ScoreBounds
  import opened ScoreBudgets
  import opened ScoreModes
  import opened ScoreTheorems

  // ----- Faults

  /** A tempo that is not three bytes, a time signature not four or of an exponent above 63, a key signature not two. */
  function MetaFault(e: TimedEvent): Option<ParseError> {
    match e.event
    case Meta(metaType, payload) =>
      if (metaType == 0x51 && |payload| != 3) || (metaType == 0x58 && |payload| != 4) || (metaType == 0x59 && |payload| != 2) then
        Some(At(e.offset, InvalidMetaEvent(metaType, |payload|)))
      else if metaType == 0x58 && payload[1] > 63 then Some(At(e.offset, InvalidTimeSignatureDenominator(payload[1])))
      else None
    case _ => None
  }

  /** A metrical division of 0, or a time code without one of the four frame rates or without a resolution. */
  function DivisionFault(division: u16): Option<ParseError> {
    if DivisionFits(division) then None
    else if division == 0 then Some(At(12, InvalidTicksPerQuarter))
    else Some(At(12, InvalidSmpteDivision(division / 0x100 - 0x100, division % 0x100)))
  }

  lemma DivisionDecides(division: u16)
    ensures match ValidateDivision(division, 12)
            case Ok(_) => DivisionFault(division) == None
            case Err(e) => DivisionFault(division) == Some(e)
  {
    DivisionFitsIff(division, 12);
  }

  /** What the End-of-Track that a grammar stops at violates. */
  function EndFault(grammar: Grammar, e: TimedEvent): Option<ParseError>
    requires e.event.Meta?
  {
    if !grammar.RequiresEndOfTrack() then None
    else if e.event.payload != [] then Some(At(e.offset, InvalidEndOfTrackLength(|e.event.payload|)))
    else if e.remaining != 0 then Some(At(e.end, EventAfterEndOfTrack))
    else None
  }

  function TrackFault(grammar: Grammar, t: Trace, trackEnd: nat): Option<ParseError>
    decreases t
  {
    match t
    case End => if grammar.RequiresEndOfTrack() then Some(At(trackEnd, MissingEndOfTrack)) else None
    case Bad(_, e) => Some(e)
    case Step(head, rest) =>
      if grammar.StopsAtEndOfTrack() && IsEndOfTrack(head.event) then EndFault(grammar, head)
      else if MetaFault(head).Some? then MetaFault(head)
      else TrackFault(grammar, rest, trackEnd)
  }

  function ChunksFault(grammar: Grammar, c: Chunks): Option<ParseError> {
    match c
    case NoMore(consumed, trailing) =>
      if grammar.RejectsTrailingBytes() && trailing != 0 then Some(At(consumed, TrailingBytes)) else None
    case BadChunk(_, e) => Some(e)
    case Chunk(_, body, base, rest) =>
      var fault := TrackFault(grammar, TraceOf(body, base), base + |body|);
      if fault.Some? then fault else ChunksFault(grammar, rest)
  }

  /** The first fault of a file under a grammar, in reading order. */
  function FileFault(grammar: Grammar, data: Bytes): Option<ParseError> {
    match HeaderAt(data)
    case Err(e) => Some(e)
    case Ok(header) =>
      if grammar.ValidatesDivision() && DivisionFault(header.value.division).Some? then DivisionFault(header.value.division)
      else ChunksFault(grammar, ChunksOf(data))
  }

  // ----- The fault decides the parse

  lemma PerformFault(run: Run, e: TimedEvent, p: nat, bytes: nat)
    requires RunWithin(None, run, p, bytes)
    ensures match Perform(None, run, e)
            case Ok(_) => MetaFault(e) == None
            case Err(error) => error.kind.SizeOverflow? || MetaFault(e) == Some(error)
  {
    hide Shaped, Indexed, Queued, InOrder, Apply, AddLyric, Tiled;
    if e.event.Channel? {
      ApplyInOrder(run.model, OpOf(e.event.status, e.event.first, e.event.second), run.time, run.time);
    }
  }

  lemma {:induction false} TraceFaultDecides(grammar: Grammar, d: Bytes, p: nat, base: nat, running: Running, run: Run)
    requires p <= |d| <= U32_MAX && RunWithin(None, run, p, base + p)
    ensures var t := TraceFrom(d, p, base, running);
            match RunTrace(None, grammar, t, run, base + |d|)
            case Ok(_) => TrackFault(grammar, t, base + |d|) == None
            case Err(e) => e.kind.SizeOverflow? || TrackFault(grammar, t, base + |d|) == Some(e)
    decreases |d| - p
  {
    hide Valid, InOrder, ScoreWithin, Advance, Perform, MetaFault, EventAt, VlqAt;
    var t := TraceFrom(d, p, base, running);
    match t {
      case End =>
      case Bad(None, _) =>
      case Bad(Some(delta), _) => AdvanceWithin(None, run, p, base + p, delta.value, delta.next);
      case Step(head, rest) =>
        AdvanceWithin(None, run, p, base + p, head.delta, head.deltaOffset);
        var now := run.(time := Advance(run.time, head.delta, head.deltaOffset).value);
        var next := EventAt(d, VlqAt(d, p, base).value.next, base, running).value.next;
        RunWithinLater(None, now, p + 1, base + p, next, base + p);
        if !(grammar.StopsAtEndOfTrack() && IsEndOfTrack(head.event)) {
          PerformFault(now, head, next, base + p);
          PerformWithin(None, now, head, next, base + p, next - p);
          if Perform(None, now, head).Ok? {
            TraceFaultDecides(grammar, d, next, base, RunningAfter(head.event), Perform(None, now, head).value);
          }
        }
    }
  }

  lemma ScoreTrackFault(grammar: Grammar, body: Bytes, base: nat, sourceTrack: nat, f: FileRun)
    requires |body| <= U32_MAX && FileWithin(None, f, sourceTrack, base)
    ensures match ScoreTrack(None, grammar, body, base, sourceTrack, f)
            case Ok(_) => TrackFault(grammar, TraceOf(body, base), base + |body|) == None
            case Err(e) => e.kind.SizeOverflow? || TrackFault(grammar, TraceOf(body, base), base + |body|) == Some(e)
  {
    hide Valid, RunTrace, TraceFrom, EmitFrom, RunWithin, FileWithin, TrackFault, EmptyModel;
    StartWithin(None, f, sourceTrack, base);
    StartModelValid(f);
    TraceFaultDecides(grammar, body, 0, base, None, TrackStart(f));
    var ran := RunTrace(None, grammar, TraceOf(body, base), TrackStart(f), base + |body|);
    if ran.Ok? {
      EmissionError(ran.value.model, sourceTrack, ran.value.name, ran.value.score, base + |body|);
    }
  }

  lemma EmissionError(m: Model, sourceTrack: nat, name: TextRange, s: Score, end: nat)
    requires Valid(m)
    ensures var r := EmitFrom(m, 0, sourceTrack, name, s, end); r.Err? ==> r.error.kind.SizeOverflow?
  {
    hide Valid, EmitFrom, RowsFrom, RowCount;
    EmitFromRows(m, 0, sourceTrack, name, s, end);
  }

  lemma {:induction false} ChunksFaultDecides(grammar: Grammar, data: Bytes, p: nat, count: nat, sourceTrack: nat, f: FileRun)
    requires p <= |data| && FileWithin(None, f, sourceTrack, p)
    ensures var c := ChunksFrom(data, p, count);
            match ScoreChunks(None, grammar, c, sourceTrack, f)
            case Ok(_) => ChunksFault(grammar, c) == None
            case Err(e) => e.kind.SizeOverflow? || ChunksFault(grammar, c) == Some(e)
    decreases count
  {
    hide FileWithin, ScoreTrack, FrameAt, TraceFrom, TrackFault;
    var c := ChunksFrom(data, p, count);
    if c.Chunk? {
      FileWithinLater(None, f, sourceTrack, p, c.base);
      ScoreTrackFault(grammar, c.body, c.base, sourceTrack, f);
      ScoreTrackWithin(None, grammar, c.body, c.base, sourceTrack, f);
      var next := ScoreTrack(None, grammar, c.body, c.base, sourceTrack, f);
      if next.Ok? {
        ChunksFaultDecides(grammar, data, c.base + |c.body|, count - 1, sourceTrack + 1, next.value);
      }
    }
  }

  /**
    For every input, grammar and budget: a score means that the file has no
    fault; an error is an exhausted budget, a 32-bit offset that overflows in a
    file above a third of 4 GiB, or the file's first fault.
   */
  lemma FaultDecides(policy: Policy, grammar: Grammar, data: Bytes)
    ensures match ScoreFile(policy, grammar, data)
            case Ok(_) => FileFault(grammar, data) == None
            case Err(e) =>
              || (e.kind.ResourceLimitExceeded? && policy.Some?)
              || (e.kind.SizeOverflow? && 3 * |data| > U32_MAX)
              || FileFault(grammar, data) == Some(e)
  {
    hide HeaderAt, ScoreChunks, ChunksFrom, FileWithin, ChunksFault, ValidateDivision, DivisionFault;
    BudgetsNeverChangeMeaning(policy, None, grammar, data);
    TrustedHasBudget(grammar, data);
    if HeaderAt(data).Ok? {
      var header := HeaderAt(data).value;
      DivisionDecides(header.value.division);
      EmptyWithin(None, header.value, header.next);
      ChunksFaultDecides(grammar, data, header.next, header.value.trackCount, 0, FileRun(EmptyScore(header.value), 0, 0));
      SmallFilesNeverOverflowUnless(grammar, data);
    }
  }

  lemma SmallFilesNeverOverflowUnless(grammar: Grammar, data: Bytes)
    ensures var r := ScoreFile(None, grammar, data); r.Err? && r.error.kind.SizeOverflow? ==> 3 * |data| > U32_MAX
  {
    hide ScoreFile;
    if 3 * |data| <= U32_MAX {
      SmallFilesNeverOverflow(None, grammar, data);
    }
  }

  lemma TrustedHasBudget(grammar: Grammar, data: Bytes)
    ensures !OutOfBudget(ScoreFile(None, grammar, data))
  {
    hide HeaderAt, ScoreChunks, ChunksFrom, ChunksOf, Sound, ChunksEnd, ChunksError;
    if HeaderAt(data).Ok? {
      ScoreOutcome(None, grammar, data);
      if grammar.Legacy? {
        ChunksErrorStructural(data, HeaderAt(data).value.next, HeaderAt(data).value.value.trackCount);
        WholeFileChunks(data);
      }
    }
  }

  /** Below a third of 4 GiB and without limits, the parse succeeds exactly for files without a fault, and fails with it. */
  lemma SmallFilesFaultIff(grammar: Grammar, data: Bytes)
    requires 3 * |data| <= U32_MAX
    ensures ScoreFile(None, grammar, data).Ok? <==> FileFault(grammar, data) == None
    ensures forall e :: ScoreFile(None, grammar, data) == Err(e) <==> FileFault(grammar, data) == Some(e)
  {
    hide ScoreFile, FileFault;
    FaultDecides(None, grammar, data);
  }

  // ----- Agreement with the structural scan

  /** The event that is the first fault among some events, if any. */
  ghost predicate FirstAmong(es: seq<TimedEvent>, j: nat, e: ParseError) {
    j < |es| && MetaFault(es[j]) == Some(e) && forall i :: 0 <= i < j ==> MetaFault(es[i]) == None
  }

  /** Some malformed meta event is read before every other one, with this fault. */
  ghost predicate HasFirst(es: seq<TimedEvent>, e: ParseError) {
    exists j: nat :: FirstAmong(es, j, e)
  }

  predicate AllWellFormed(es: seq<TimedEvent>) {
    forall i :: 0 <= i < |es| ==> MetaFault(es[i]) == None
  }

  lemma FirstAtHead(e: TimedEvent, es: seq<TimedEvent>)
    requires MetaFault(e).Some?
    ensures HasFirst([e] + es, MetaFault(e).value) && !AllWellFormed([e] + es)
  {
    hide MetaFault;
    assert ([e] + es)[0] == e;
    assert FirstAmong([e] + es, 0, MetaFault(e).value);
  }

  lemma FirstBehind(e: TimedEvent, es: seq<TimedEvent>, error: ParseError)
    requires MetaFault(e) == None
    ensures HasFirst(es, error) ==> HasFirst([e] + es, error)
    ensures AllWellFormed([e] + es) <==> AllWellFormed(es)
  {
    hide MetaFault;
    var all := [e] + es;
    assert forall i :: 0 <= i < |es| ==> all[i + 1] == es[i];
    if HasFirst(es, error) {
      var j: nat :| FirstAmong(es, j, error);
      assert FirstAmong(all, j + 1, error);
    }
    if AllWellFormed(all) {
      forall i | 0 <= i < |es| ensures MetaFault(es[i]) == None {
        assert MetaFault(all[i + 1]) == None;
      }
    }
  }

  /** A legacy track's fault is its first malformed meta event or, if it has none, its wire error. */
  lemma {:induction false} LegacyTrackFault(t: Trace, trackEnd: nat)
    ensures match TrackFault(Legacy, t, trackEnd)
            case None => TraceError(t) == None && AllWellFormed(EventsOf(t))
            case Some(e) => if AllWellFormed(EventsOf(t)) then TraceError(t) == Some(e) else HasFirst(EventsOf(t), e)
    decreases t
  {
    hide MetaFault, AllWellFormed, HasFirst;
    if t.Step? {
      if MetaFault(t.head).Some? {
        FirstAtHead(t.head, EventsOf(t.rest));
      } else {
        LegacyTrackFault(t.rest, trackEnd);
        var fault := TrackFault(Legacy, t.rest, trackEnd);
        FirstBehind(t.head, EventsOf(t.rest), if fault.Some? then fault.value else At(0, UnexpectedEnd));
      }
    } else {
      NothingMalformed();
    }
  }

  lemma NothingMalformed()
    ensures AllWellFormed([])
  {}

  /** No meta event of the file that is read before the first wire error is malformed. */
  predicate MetasWellFormed(c: Chunks) {
    c.Chunk? ==>
      var es := EventsOf(TraceOf(c.body, c.base));
      && AllWellFormed(es)
      && (TraceError(TraceOf(c.body, c.base)) == None ==> MetasWellFormed(c.rest))
  }

  lemma {:induction false} LegacyChunksFault(c: Chunks)
    ensures MetasWellFormed(c) ==> ChunksFault(Legacy, c) == ChunksError(c)
    ensures !MetasWellFormed(c) ==> ChunksFault(Legacy, c).Some? && !Structural(ChunksFault(Legacy, c).value.kind)
  {
    hide TraceOf, MetaFault, TrackFault, TraceError, AllWellFormed, HasFirst;
    if c.Chunk? {
      var t := TraceOf(c.body, c.base);
      LegacyTrackFault(t, c.base + |c.body|);
      var fault := TrackFault(Legacy, t, c.base + |c.body|);
      if fault.None? {
        LegacyChunksFault(c.rest);
      } else {
        FirstKind(EventsOf(t), fault.value);
      }
    }
  }

  lemma FirstKind(es: seq<TimedEvent>, e: ParseError)
    ensures HasFirst(es, e) ==> e.kind.InvalidMetaEvent? || e.kind.InvalidTimeSignatureDenominator?
  {
    if HasFirst(es, e) {
      var j: nat :| FirstAmong(es, j, e);
      MetaFaultKind(es[j]);
    }
  }

  lemma MetaFaultKind(e: TimedEvent)
    ensures MetaFault(e).Some? ==>
              MetaFault(e).value.kind.InvalidMetaEvent? || MetaFault(e).value.kind.InvalidTimeSignatureDenominator?
  {}

  /**
    The trusted score parser and the structural scan read the same file. A score
    means that the scan succeeds with the same header and extent and that every
    recognised meta event is well formed. Otherwise the error is a 32-bit
    overflow of a large file, or the first fault: the scan's own error if no
    malformed meta event is read before it, and a malformed meta event if one is.
   */
  lemma ScoreAgreesWithScan(data: Bytes)
    ensures match ScoreFile(None, Legacy, data)
            case Ok(s) =>
              && ScanFile(data).Ok? && HeaderAt(data).Ok? && MetasWellFormed(ChunksOf(data))
              && var scan := ScanFile(data).value;
              && s.header == scan.header && s.bytesConsumed == scan.bytesConsumed && s.trailingBytes == scan.trailingBytes
            case Err(e) =>
              || (e.kind.SizeOverflow? && 3 * |data| > U32_MAX)
              || (HeaderAt(data).Ok? && !MetasWellFormed(ChunksOf(data)) && !Structural(e.kind)
                  && ChunksFault(Legacy, ChunksOf(data)) == Some(e))
              || ((HeaderAt(data).Ok? ==> MetasWellFormed(ChunksOf(data))) && ScanFile(data) == Err(e))
  {
    hide HeaderAt, ScoreChunks, ScanChunks, ChunksFrom, ChunksOf, Sound, ChunksEnd, ChunksError, ChunksFault, MetasWellFormed;
    FaultDecides(None, Legacy, data);
    if HeaderAt(data).Ok? {
      var c := ChunksOf(data);
      LegacyChunksFault(c);
      ScoreOutcome(None, Legacy, data);
      ScanChunksError(c, Started(HeaderAt(data).value.value));
      ScanKeepsHeader(data);
    }
  }

  /** Below a third of 4 GiB the trusted parser accepts exactly the files that scan and whose meta events are well formed. */
  lemma SmallFilesScoreIff(data: Bytes)
    requires 3 * |data| <= U32_MAX
    ensures ScoreFile(None, Legacy, data).Ok? <==> ScanFile(data).Ok? && HeaderAt(data).Ok? && MetasWellFormed(ChunksOf(data))
  {
    hide HeaderAt, ScoreFile, MetasWellFormed, ChunksOf;
    ScoreAgreesWithScan(data);
  }

  // ----- Compatible mode and the scan

  /** What follows the first End-of-Track of a trace; nothing if there is none. */
  function AfterEnd(t: Trace): Trace {
    if !t.Step? then End else if IsEndOfTrack(t.head.event) then t.rest else AfterEnd(t.rest)
  }

  /** In every chunk the bytes after the first End-of-Track decode without a wire error. */
  predicate TailsDecode(c: Chunks) {
    c.Chunk? ==> TraceError(AfterEnd(TraceOf(c.body, c.base))) == None && TailsDecode(c.rest)
  }

  lemma {:induction false} CompatibleTrace(policy: Policy, t: Trace, run: Run, trackEnd: nat)
    requires Valid(run.model) && RunTrace(policy, Compatible, t, run, trackEnd).Ok?
    ensures TraceError(t) == TraceError(AfterEnd(t))
    decreases t
  {
    hide Valid, Perform;
    if t.Step? && !IsEndOfTrack(t.head.event) {
      var now := run.(time := Advance(run.time, t.head.delta, t.head.deltaOffset).value);
      PerformValid(policy, now, t.head);
      CompatibleTrace(policy, t.rest, Perform(policy, now, t.head).value, trackEnd);
    }
  }

  lemma {:induction false} CompatibleChunks(policy: Policy, c: Chunks, sourceTrack: nat, f: FileRun)
    requires ScoreChunks(policy, Compatible, c, sourceTrack, f).Ok?
    ensures ChunksError(c) == None <==> TailsDecode(c)
    ensures var s := ScoreChunks(policy, Compatible, c, sourceTrack, f).value; ChunksEnd(c) == Some((s.bytesConsumed, s.trailingBytes))
    decreases c
  {
    hide Valid, RunTrace, EmitFrom, TraceOf, AfterEnd, TraceError;
    if c.Chunk? {
      EmptyModelValid();
      CompatibleTrace(policy, TraceOf(c.body, c.base), TrackStart(f), c.base + |c.body|);
      CompatibleChunks(policy, c.rest, sourceTrack + 1, ScoreTrack(policy, Compatible, c.body, c.base, sourceTrack, f).value);
    }
  }

  /**
    A compatible score says nothing about the bytes after each track's first
    End-of-Track: the scan succeeds exactly when those decode too, and then its
    header and extent are the score's.
   */
  lemma CompatibleScanIff(policy: Policy, data: Bytes)
    requires ScoreFile(policy, Compatible, data).Ok?
    ensures HeaderAt(data).Ok? && (ScanFile(data).Ok? <==> TailsDecode(ChunksOf(data)))
    ensures var s, scan := ScoreFile(policy, Compatible, data).value, ScanFile(data);
            scan.Ok? ==>
              && s.header == scan.value.header
              && s.bytesConsumed == scan.value.bytesConsumed && s.trailingBytes == scan.value.trailingBytes
  {
    hide HeaderAt, ScoreChunks, ScanChunks, ChunksFrom, Sound, ChunksEnd, ChunksError, TailsDecode;
    var header := HeaderAt(data).value;
    CompatibleChunks(policy, ChunksOf(data), 0, FileRun(EmptyScore(header.value), 0, 0));
    ScoreOutcome(policy, Compatible, data);
    ScanChunksError(ChunksOf(data), Started(header.value));
    ScanKeepsHeader(data);
  }
}
