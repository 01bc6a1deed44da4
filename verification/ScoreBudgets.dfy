/** Budgets only ever cut a parse short: they never change what it means. */
module ScoreBudgets {
  import opened Base
  import opened Smf
  import opened Wire
  import opened ScoreTypes
  import opened TrackModel
  import opened Scores
  import TrackInvariants
  import opened ScoreGrammar
  import opened ScoreEmission
  import opened ScoreBounds

  /** `q` allows whatever `p` allows. */
  predicate AtMost(p: Policy, q: Policy) {
    q.None? || (p.Some?
      && p.value.maxInputBytes <= q.value.maxInputBytes
      && p.value.maxSourceTracks <= q.value.maxSourceTracks
      && p.value.maxTrackBytes <= q.value.maxTrackBytes
      && p.value.maxEvents <= q.value.maxEvents
      && p.value.maxNoteStarts <= q.value.maxNoteStarts
      && p.value.maxTextBytes <= q.value.maxTextBytes)
  }

  predicate OutOfBudget<T>(r: Result<T, ParseError>) {
    r.Err? && r.error.kind.ResourceLimitExceeded?
  }

  /** Either the smaller budget ran out, or both budgets give the same outcome. */
  predicate Agrees<T(==)>(r: Result<T, ParseError>, larger: Result<T, ParseError>) {
    OutOfBudget(r) || r == larger
  }

  lemma PerformAgrees(p: Policy, q: Policy, run: Run, e: TimedEvent)
    requires AtMost(p, q) && Valid(run.model)
    ensures Agrees(Perform(p, run, e), Perform(q, run, e))
  {
    hide Valid, Apply, AddLyric, ValidateMeta;
  }

  lemma {:induction false} RunTraceAgrees(p: Policy, q: Policy, grammar: Grammar, t: Trace, run: Run, trackEnd: nat)
    requires AtMost(p, q) && Valid(run.model)
    ensures Agrees(RunTrace(p, grammar, t, run, trackEnd), RunTrace(q, grammar, t, run, trackEnd))
    decreases t
  {
    hide Valid, Perform;
    if t.Step? {
      var time := Advance(run.time, t.head.delta, t.head.deltaOffset);
      if time.Ok? {
        var now := run.(time := time.value);
        PerformAgrees(p, q, now, t.head);
        PerformValid(p, now, t.head);
        if Perform(p, now, t.head).Ok? {
          RunTraceAgrees(p, q, grammar, t.rest, Perform(p, now, t.head).value, trackEnd);
        }
      }
    }
  }

  lemma ScoreTrackAgrees(p: Policy, q: Policy, grammar: Grammar, body: Bytes, base: nat, sourceTrack: nat, f: FileRun)
    requires AtMost(p, q)
    ensures Agrees(ScoreTrack(p, grammar, body, base, sourceTrack, f), ScoreTrack(q, grammar, body, base, sourceTrack, f))
  {
    hide Valid, RunTrace, EmitFrom, TraceOf;
    TrackInvariants.EmptyModelValid();
    RunTraceAgrees(p, q, grammar, TraceOf(body, base), TrackStart(f), base + |body|);
  }

  lemma {:induction false} ScoreChunksAgrees(p: Policy, q: Policy, grammar: Grammar, c: Chunks, sourceTrack: nat, f: FileRun)
    requires AtMost(p, q)
    ensures Agrees(ScoreChunks(p, grammar, c, sourceTrack, f), ScoreChunks(q, grammar, c, sourceTrack, f))
    decreases c
  {
    hide ScoreTrack;
    if c.Chunk? {
      ScoreTrackAgrees(p, q, grammar, c.body, c.base, sourceTrack, f);
      var next := ScoreTrack(p, grammar, c.body, c.base, sourceTrack, f);
      if next.Ok? {
        ScoreChunksAgrees(p, q, grammar, c.rest, sourceTrack + 1, next.value);
      }
    }
  }

  /**
    For every input and grammar: under any pointwise larger budget, or none, the
    outcome is the same score or the same error, unless the smaller budget
    itself is what failed.
   */
  lemma BudgetsNeverChangeMeaning(p: Policy, q: Policy, grammar: Grammar, data: Bytes)
    requires AtMost(p, q)
    ensures Agrees(ScoreFile(p, grammar, data), ScoreFile(q, grammar, data))
  {
    hide ScoreChunks, HeaderAt, ChunksFrom;
    var header := HeaderAt(data);
    if header.Ok? {
      ScoreChunksAgrees(p, q, grammar, ChunksFrom(data, header.value.next, header.value.value.trackCount), 0,
                        FileRun(EmptyScore(header.value.value), 0, 0));
    }
  }

  // ----- What a parse demands

  /** Events that the score decoder reads from a track: all, or those up to the first End-of-Track. */
  function EventsRead(grammar: Grammar, t: Trace): nat
    decreases t
  {
    if !t.Step? then 0
    else if grammar.StopsAtEndOfTrack() && IsEndOfTrack(t.head.event) then 1
    else 1 + EventsRead(grammar, t.rest)
  }

  /** Note-ons with a velocity other than zero among them. */
  function NoteStartsRead(grammar: Grammar, t: Trace): nat
    decreases t
  {
    if !t.Step? || (grammar.StopsAtEndOfTrack() && IsEndOfTrack(t.head.event)) then 0
    else (if IsNoteStart(t.head.event) then 1 else 0) + NoteStartsRead(grammar, t.rest)
  }

  predicate IsNoteStart(event: Event) {
    event.Channel? && 0x90 <= event.status <= 0x9F && event.second != 0
  }

  function FileEventsRead(grammar: Grammar, c: Chunks): nat
    decreases c
  {
    if c.Chunk? then EventsRead(grammar, TraceOf(c.body, c.base)) + FileEventsRead(grammar, c.rest) else 0
  }

  function FileNoteStartsRead(grammar: Grammar, c: Chunks): nat
    decreases c
  {
    if c.Chunk? then NoteStartsRead(grammar, TraceOf(c.body, c.base)) + FileNoteStartsRead(grammar, c.rest) else 0
  }

  function LargestTrack(c: Chunks): nat
    decreases c
  {
    if c.Chunk? then Max(|c.body|, LargestTrack(c.rest)) else 0
  }

  datatype Demands = Demands(
    inputBytes: nat, sourceTracks: nat, trackBytes: nat, events: nat, noteStarts: nat, textBytes: nat)

  predicate Allows(limits: Limits, d: Demands) {
    && d.inputBytes <= limits.maxInputBytes && d.sourceTracks <= limits.maxSourceTracks
    && d.trackBytes <= limits.maxTrackBytes && d.events <= limits.maxEvents
    && d.noteStarts <= limits.maxNoteStarts && d.textBytes <= limits.maxTextBytes
  }

  /** The error names a limit, and that limit is below what is demanded of it. */
  predicate Exceeds(limits: Limits, d: Demands, e: ParseError) {
    e.kind.ResourceLimitExceeded? &&
    match e.kind.resource
    case InputBytes => e.kind.limit == limits.maxInputBytes < d.inputBytes
    case SourceTracks => e.kind.limit == limits.maxSourceTracks < d.sourceTracks
    case TrackBytes => e.kind.limit == limits.maxTrackBytes < d.trackBytes
    case Events => e.kind.limit == limits.maxEvents < d.events
    case NoteStarts => e.kind.limit == limits.maxNoteStarts < d.noteStarts
    case TextBytes => e.kind.limit == limits.maxTextBytes < d.textBytes
  }

  predicate Below(d: Demands, more: Demands) {
    && d.inputBytes <= more.inputBytes && d.sourceTracks <= more.sourceTracks && d.trackBytes <= more.trackBytes
    && d.events <= more.events && d.noteStarts <= more.noteStarts && d.textBytes <= more.textBytes
  }

  /** Under limits: the same result where they allow what is demanded, and otherwise a limit that does not. */
  predicate Limited<T(==)>(limits: Limits, d: Demands, r: Result<T, ParseError>, trusted: Result<T, ParseError>) {
    if Allows(limits, d) then r == trusted else r.Err? && Exceeds(limits, d, r.error)
  }

  function RunDemands(run: Run): Demands {
    Demands(0, 0, 0, run.events, run.noteStarts, |run.score.textData|)
  }

  function FileDemands(f: FileRun): Demands {
    Demands(0, 0, 0, f.events, f.noteStarts, |f.score.textData|)
  }

  lemma PerformLimited(limits: Limits, run: Run, e: TimedEvent)
    requires Valid(run.model) && Perform(None, run, e).Ok? && Allows(limits, RunDemands(run))
    ensures Limited(limits, RunDemands(Perform(None, run, e).value), Perform(Some(limits), run, e), Perform(None, run, e))
  {
    hide Valid, Apply, AddLyric, ValidateMeta;
  }

  lemma StartsByStatus(status: ChannelStatus, first: u7, second: u7)
    ensures OpOf(status, first, second).NoteOn? <==> 0x90 <= status <= 0x9F && second != 0
  {}

  lemma {:induction false} RunReads(grammar: Grammar, t: Trace, run: Run, trackEnd: nat)
    requires Valid(run.model) && RunTrace(None, grammar, t, run, trackEnd).Ok?
    ensures var r := RunTrace(None, grammar, t, run, trackEnd).value;
            && r.events == run.events + EventsRead(grammar, t) && r.noteStarts == run.noteStarts + NoteStartsRead(grammar, t)
            && Below(RunDemands(run), RunDemands(r))
    decreases t
  {
    hide Valid, Perform, IsNoteStart;
    if t.Step? && !(grammar.StopsAtEndOfTrack() && IsEndOfTrack(t.head.event)) {
      var now := run.(time := run.time + t.head.delta);
      PerformValid(None, now, t.head);
      PerformReads(now, t.head);
      RunReads(grammar, t.rest, Perform(None, now, t.head).value, trackEnd);
    }
  }

  lemma PerformReads(run: Run, e: TimedEvent)
    requires Valid(run.model) && Perform(None, run, e).Ok?
    ensures var next := Perform(None, run, e).value;
            && next.events == run.events + 1
            && next.noteStarts == run.noteStarts + (if IsNoteStart(e.event) then 1 else 0)
            && Below(RunDemands(run), RunDemands(next))
  {
    hide Valid, Apply, AddLyric, ValidateMeta;
    if e.event.Channel? {
      StartsByStatus(e.event.status, e.event.first, e.event.second);
    }
  }

  lemma LimitedMore<T, U>(limits: Limits, d: Demands, more: Demands, r: Result<T, ParseError>, trusted: Result<T, ParseError>,
                          later: Result<U, ParseError>, laterTrusted: Result<U, ParseError>)
    requires Below(d, more) && Limited(limits, d, r, trusted)
    requires r.Err? ==> later.Err? && later.error == r.error
    requires !Allows(limits, d) || Limited(limits, more, later, laterTrusted)
    ensures Limited(limits, more, later, laterTrusted)
  {}

  lemma {:induction false} RunLimited(limits: Limits, grammar: Grammar, t: Trace, run: Run, trackEnd: nat)
    requires Valid(run.model) && RunTrace(None, grammar, t, run, trackEnd).Ok? && Allows(limits, RunDemands(run))
    ensures Limited(limits, RunDemands(RunTrace(None, grammar, t, run, trackEnd).value),
                    RunTrace(Some(limits), grammar, t, run, trackEnd), RunTrace(None, grammar, t, run, trackEnd))
    decreases t
  {
    hide Valid, Perform, Allows, Exceeds, Below;
    if t.Step? {
      var now := run.(time := run.time + t.head.delta);
      if grammar.StopsAtEndOfTrack() && IsEndOfTrack(t.head.event) {
        EndLimited(limits, grammar, now, t.head);
      } else {
        PerformValid(None, now, t.head);
        PerformLimited(limits, now, t.head);
        var next := Perform(None, now, t.head).value;
        RunReads(grammar, t.rest, next, trackEnd);
        if Allows(limits, RunDemands(next)) {
          RunLimited(limits, grammar, t.rest, next, trackEnd);
        } else {
          LimitedMore(limits, RunDemands(next), RunDemands(RunTrace(None, grammar, t, run, trackEnd).value),
                      Perform(Some(limits), now, t.head), Perform(None, now, t.head),
                      RunTrace(Some(limits), grammar, t, run, trackEnd), RunTrace(None, grammar, t, run, trackEnd));
        }
      }
    }
  }

  lemma EndLimited(limits: Limits, grammar: Grammar, run: Run, e: TimedEvent)
    requires e.event.Meta? && EndTrack(None, grammar, run, e).Ok? && Allows(limits, RunDemands(run))
    ensures Limited(limits, RunDemands(EndTrack(None, grammar, run, e).value), EndTrack(Some(limits), grammar, run, e),
                    EndTrack(None, grammar, run, e))
  {}

  lemma TrackReads(grammar: Grammar, body: Bytes, base: nat, sourceTrack: nat, f: FileRun)
    requires ScoreTrack(None, grammar, body, base, sourceTrack, f).Ok? && |f.score.segments| == |f.score.tracks|
    ensures var next := ScoreTrack(None, grammar, body, base, sourceTrack, f).value;
            && |next.score.segments| == |next.score.tracks|
            && next.events == f.events + EventsRead(grammar, TraceOf(body, base))
            && next.noteStarts == f.noteStarts + NoteStartsRead(grammar, TraceOf(body, base))
            && Below(FileDemands(f), FileDemands(next))
  {
    hide Valid, RunTrace, EmitFrom, TraceOf, EventsRead, NoteStartsRead, GroupsFrom, Emitted;
    TrackInvariants.EmptyModelValid();
    var t, start, end := TraceOf(body, base), TrackStart(f), base + |body|;
    RunReads(grammar, t, start, end);
    RunKeepsTracks(None, grammar, t, start, end);
    var run := RunTrace(None, grammar, t, start, end).value;
    EmitFromEmits(run.model, 0, sourceTrack, run.name, run.score, end);
  }

  lemma TrackLimited(limits: Limits, grammar: Grammar, body: Bytes, base: nat, sourceTrack: nat, f: FileRun)
    requires ScoreTrack(None, grammar, body, base, sourceTrack, f).Ok? && |f.score.segments| == |f.score.tracks|
    requires Allows(limits, FileDemands(f))
    ensures Limited(limits, FileDemands(ScoreTrack(None, grammar, body, base, sourceTrack, f).value),
                    ScoreTrack(Some(limits), grammar, body, base, sourceTrack, f),
                    ScoreTrack(None, grammar, body, base, sourceTrack, f))
  {
    hide Valid, RunTrace, EmitFrom, TraceOf, Allows, Exceeds, GroupsFrom, Emitted;
    TrackInvariants.EmptyModelValid();
    var t, start, end := TraceOf(body, base), TrackStart(f), base + |body|;
    RunLimited(limits, grammar, t, start, end);
    RunKeepsTracks(None, grammar, t, start, end);
    var run := RunTrace(None, grammar, t, start, end).value;
    EmitFromEmits(run.model, 0, sourceTrack, run.name, run.score, end);
  }

  lemma {:induction false} ChunksKeepText(grammar: Grammar, c: Chunks, sourceTrack: nat, f: FileRun)
    requires ScoreChunks(None, grammar, c, sourceTrack, f).Ok? && |f.score.segments| == |f.score.tracks|
    ensures |f.score.textData| <= |ScoreChunks(None, grammar, c, sourceTrack, f).value.textData|
    decreases c
  {
    hide ScoreTrack, TraceOf, Limited;
    if c.Chunk? {
      TrackReads(grammar, c.body, c.base, sourceTrack, f);
      ChunksKeepText(grammar, c.rest, sourceTrack + 1, ScoreTrack(None, grammar, c.body, c.base, sourceTrack, f).value);
    }
  }

  /** What the chunks demand behind what was read before. */
  function ChunksDemand(grammar: Grammar, c: Chunks, f: FileRun, text: nat): Demands {
    Demands(0, 0, LargestTrack(c), f.events + FileEventsRead(grammar, c), f.noteStarts + FileNoteStartsRead(grammar, c), text)
  }

  lemma {:induction false} ChunksLimited(limits: Limits, grammar: Grammar, c: Chunks, sourceTrack: nat, f: FileRun)
    requires ScoreChunks(None, grammar, c, sourceTrack, f).Ok? && |f.score.segments| == |f.score.tracks|
    requires Allows(limits, FileDemands(f))
    ensures Limited(limits, ChunksDemand(grammar, c, f, |ScoreChunks(None, grammar, c, sourceTrack, f).value.textData|),
                    ScoreChunks(Some(limits), grammar, c, sourceTrack, f), ScoreChunks(None, grammar, c, sourceTrack, f))
    decreases c
  {
    hide ScoreTrack, TraceOf, EventsRead, NoteStartsRead;
    ChunksKeepText(grammar, c, sourceTrack, f);
    if c.Chunk? {
      TrackReads(grammar, c.body, c.base, sourceTrack, f);
      TrackLimited(limits, grammar, c.body, c.base, sourceTrack, f);
      var next := ScoreTrack(None, grammar, c.body, c.base, sourceTrack, f).value;
      ChunksKeepText(grammar, c.rest, sourceTrack + 1, next);
      if Allows(limits, FileDemands(next)) {
        ChunksLimited(limits, grammar, c.rest, sourceTrack + 1, next);
      }
    }
  }

  /** What a whole parse demands of its limits. */
  function DemandsOf(grammar: Grammar, data: Bytes, s: Score): Demands
    requires HeaderAt(data).Ok?
  {
    var c := ChunksOf(data);
    Demands(|data|, HeaderAt(data).value.value.trackCount, LargestTrack(c), FileEventsRead(grammar, c),
            FileNoteStartsRead(grammar, c), |s.textData|)
  }

  /**
    A file that parses without limits parses under some limits exactly if each is
    at least what the file demands of it: its bytes, its declared tracks, its
    largest track, the events read, the notes started and the text kept. Then the
    score is the same; otherwise the error names a limit that is too small.
   */
  lemma LimitsIff(limits: Limits, grammar: Grammar, data: Bytes)
    requires ScoreFile(None, grammar, data).Ok?
    ensures HeaderAt(data).Ok?
    ensures Limited(limits, DemandsOf(grammar, data, ScoreFile(None, grammar, data).value),
                    ScoreFile(Some(limits), grammar, data), ScoreFile(None, grammar, data))
  {
    hide ScoreChunks, HeaderAt, ChunksFrom, FileEventsRead, FileNoteStartsRead, LargestTrack;
    var header := HeaderAt(data).value;
    ChunksLimited(limits, grammar, ChunksOf(data), 0, FileRun(EmptyScore(header.value), 0, 0));
  }

  function WithEvents(limits: Limits, events: u64): Policy {
    Some(limits.(maxEvents := events))
  }

  /**
    A file that parses under some limits parses under another event limit, to the
    same score, exactly if that limit is at least the number of events the decoder
    reads; otherwise the limit is what fails.
   */
  lemma EventBudgetIff(limits: Limits, events: u64, grammar: Grammar, data: Bytes)
    requires ScoreFile(Some(limits), grammar, data).Ok?
    ensures HeaderAt(data).Ok?
    ensures var r := ScoreFile(WithEvents(limits, events), grammar, data);
            if FileEventsRead(grammar, ChunksOf(data)) <= events then r == ScoreFile(Some(limits), grammar, data)
            else OutOfBudget(r)
  {
    hide ScoreFile, HeaderAt, ChunksOf, FileEventsRead, FileNoteStartsRead, LargestTrack;
    BudgetsNeverChangeMeaning(Some(limits), None, grammar, data);
    LimitsIff(limits, grammar, data);
    LimitsIff(limits.(maxEvents := events), grammar, data);
  }
}
