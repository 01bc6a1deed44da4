/** Strict parsing refines compatible and legacy parsing, and exactly when. */
module ScoreModes {
  import opened Base
  import opened Smf
  import opened Wire
  import opened ScoreTypes
  import opened TrackModel
  import opened Scores
  import opened ScoreGrammar
  import TrackInvariants

  /** The first End-of-Track is empty and is the last thing in the payload. */
  predicate EndsStrictly(t: Trace) {
    t.Step? && if IsEndOfTrack(t.head.event) then PayloadOf(t.head.event) == [] && t.head.remaining == 0
               else EndsStrictly(t.rest)
  }

  predicate ChunksEndStrictly(c: Chunks) {
    match c
    case NoMore(_, trailing) => trailing == 0
    case BadChunk(_, _) => false
    case Chunk(_, body, base, rest) => EndsStrictly(TraceOf(body, base)) && ChunksEndStrictly(rest)
  }

  /** A positive number of ticks, or a time code of 24, 25, 29 or 30 frames (as E8, E7, E3 or E2) and a resolution. */
  predicate DivisionFits(division: u16) {
    || 0 < division < 0x8000
    || (division / 0x100 in {0xE8, 0xE7, 0xE3, 0xE2} && division % 0x100 != 0)
  }

  lemma DivisionFitsIff(division: u16, offset: nat)
    ensures ValidateDivision(division, offset).Ok? <==> DivisionFits(division)
  {}

  /** What strict mode asks of a file beyond what compatible mode accepts. */
  predicate StrictlyFramed(data: Bytes) {
    && HeaderAt(data).Ok?
    && DivisionFits(HeaderAt(data).value.value.division)
    && ChunksEndStrictly(ChunksOf(data))
  }

  lemma {:induction false} TraceStrictIff(policy: Policy, t: Trace, run: Run, trackEnd: nat, r: Run)
    requires Valid(run.model)
    ensures RunTrace(policy, Strict, t, run, trackEnd) == Ok(r)
       <==> RunTrace(policy, Compatible, t, run, trackEnd) == Ok(r) && EndsStrictly(t)
    decreases t
  {
    hide Valid, Perform;
    if t.Step? {
      var time := Advance(run.time, t.head.delta, t.head.deltaOffset);
      if time.Ok? && !IsEndOfTrack(t.head.event) {
        var now := run.(time := time.value);
        PerformValid(policy, now, t.head);
        if Perform(policy, now, t.head).Ok? {
          TraceStrictIff(policy, t.rest, Perform(policy, now, t.head).value, trackEnd, r);
        }
      }
    }
  }

  lemma ScoreTrackStrictIff(policy: Policy, body: Bytes, base: nat, sourceTrack: nat, f: FileRun, r: FileRun)
    ensures ScoreTrack(policy, Strict, body, base, sourceTrack, f) == Ok(r)
       <==> ScoreTrack(policy, Compatible, body, base, sourceTrack, f) == Ok(r) && EndsStrictly(TraceOf(body, base))
  {
    hide Valid, RunTrace, EmitFrom, TraceOf;
    TrackInvariants.EmptyModelValid();
    var t := TraceOf(body, base);
    var strict := RunTrace(policy, Strict, t, TrackStart(f), base + |body|);
    var compatible := RunTrace(policy, Compatible, t, TrackStart(f), base + |body|);
    if strict.Ok? {
      TraceStrictIff(policy, t, TrackStart(f), base + |body|, strict.value);
    } else if compatible.Ok? {
      TraceStrictIff(policy, t, TrackStart(f), base + |body|, compatible.value);
    }
  }

  lemma {:induction false} ScoreChunksStrictIff(policy: Policy, c: Chunks, sourceTrack: nat, f: FileRun, s: Score)
    ensures ScoreChunks(policy, Strict, c, sourceTrack, f) == Ok(s)
       <==> ScoreChunks(policy, Compatible, c, sourceTrack, f) == Ok(s) && ChunksEndStrictly(c)
    decreases c
  {
    hide ScoreTrack, TraceOf, EndsStrictly;
    if c.Chunk? {
      var strict := ScoreTrack(policy, Strict, c.body, c.base, sourceTrack, f);
      var compatible := ScoreTrack(policy, Compatible, c.body, c.base, sourceTrack, f);
      if strict.Ok? {
        ScoreTrackStrictIff(policy, c.body, c.base, sourceTrack, f, strict.value);
        ScoreChunksStrictIff(policy, c.rest, sourceTrack + 1, strict.value, s);
      } else if compatible.Ok? {
        ScoreTrackStrictIff(policy, c.body, c.base, sourceTrack, f, compatible.value);
      }
    }
  }

  /**
    For every input and budget, strict mode returns a score exactly when
    compatible mode returns that score and the file is strictly framed.
   */
  lemma StrictIff(policy: Policy, data: Bytes, s: Score)
    ensures ScoreFile(policy, Strict, data) == Ok(s)
       <==> ScoreFile(policy, Compatible, data) == Ok(s) && StrictlyFramed(data)
  {
    hide ScoreChunks, HeaderAt, ChunksEndStrictly, ChunksFrom;
    var header := HeaderAt(data);
    if header.Ok? {
      var c, f := ChunksOf(data), FileRun(EmptyScore(header.value.value), 0, 0);
      var strict := ScoreChunks(policy, Strict, c, 0, f);
      var compatible := ScoreChunks(policy, Compatible, c, 0, f);
      if strict.Ok? {
        ScoreChunksStrictIff(policy, c, 0, f, strict.value);
      } else if compatible.Ok? {
        ScoreChunksStrictIff(policy, c, 0, f, compatible.value);
      }
    }
  }

  // ----- Strict success is legacy success

  /** An End-of-Track that no grammar acts on counts as an event and changes nothing else. */
  lemma EndOfTrackIsInert(policy: Policy, run: Run, e: TimedEvent)
    requires Valid(run.model) && IsEndOfTrack(e.event)
    ensures var r := Perform(policy, run, e);
            match ChargeEvent(policy, run.events, e.offset)
            case Ok(events) => r == Ok(run.(events := events))
            case Err(error) => r == Err(error)
  {
    hide Valid, AddLyric;
  }

  lemma {:induction false} TraceStrictIsLegacy(policy: Policy, d: Bytes, p: nat, base: nat, running: Running, run: Run)
    requires p <= |d| && Valid(run.model)
    requires RunTrace(policy, Strict, TraceFrom(d, p, base, running), run, base + |d|).Ok?
    ensures RunTrace(policy, Legacy, TraceFrom(d, p, base, running), run, base + |d|)
         == RunTrace(policy, Strict, TraceFrom(d, p, base, running), run, base + |d|)
    decreases |d| - p
  {
    hide Valid, Perform, EventAt, VlqAt, EndTrack;
    var t := TraceFrom(d, p, base, running);
    if t.Step? {
      var now := run.(time := Advance(run.time, t.head.delta, t.head.deltaOffset).value);
      var next := EventAt(d, VlqAt(d, p, base).value.next, base, running).value.next;
      PerformValid(policy, now, t.head);
      if IsEndOfTrack(t.head.event) {
        EndOfTrackIsInert(policy, now, t.head);
        StrictEndIsLast(policy, now, t.head);
      } else {
        TraceStrictIsLegacy(policy, d, next, base, RunningAfter(t.head.event), Perform(policy, now, t.head).value);
      }
    }
  }

  lemma StrictEndIsLast(policy: Policy, run: Run, e: TimedEvent)
    requires e.event.Meta? && EndTrack(policy, Strict, run, e).Ok?
    ensures e.remaining == 0 && ChargeEvent(policy, run.events, e.offset).Ok?
    ensures EndTrack(policy, Strict, run, e) == Ok(run.(events := ChargeEvent(policy, run.events, e.offset).value))
  {}

  lemma {:induction false} ScoreChunksStrictIsLegacy(policy: Policy, c: Chunks, sourceTrack: nat, f: FileRun)
    requires ScoreChunks(policy, Strict, c, sourceTrack, f).Ok?
    ensures ScoreChunks(policy, Legacy, c, sourceTrack, f) == ScoreChunks(policy, Strict, c, sourceTrack, f)
    decreases c
  {
    hide Valid, RunTrace, EmitFrom, TraceFrom;
    if c.Chunk? {
      TrackInvariants.EmptyModelValid();
      TraceStrictIsLegacy(policy, c.body, 0, c.base, None, TrackStart(f));
      ScoreChunksStrictIsLegacy(policy, c.rest, sourceTrack + 1,
                                ScoreTrack(policy, Strict, c.body, c.base, sourceTrack, f).value);
    }
  }

  /** A score that strict mode returns is also what both permissive parsers return. */
  lemma StrictRefines(policy: Policy, data: Bytes)
    requires ScoreFile(policy, Strict, data).Ok?
    ensures ScoreFile(policy, Compatible, data) == ScoreFile(policy, Strict, data)
    ensures ScoreFile(policy, Legacy, data) == ScoreFile(policy, Strict, data)
  {
    hide ScoreChunks, HeaderAt, ChunksFrom, StrictlyFramed;
    StrictIff(policy, data, ScoreFile(policy, Strict, data).value);
    var header := HeaderAt(data).value;
    ScoreChunksStrictIsLegacy(policy, ChunksFrom(data, header.next, header.value.trackCount), 0,
                              FileRun(EmptyScore(header.value), 0, 0));
  }
}
