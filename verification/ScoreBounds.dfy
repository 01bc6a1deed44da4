/**
  Invariants of every score parse, tied to the bytes read so far, and what they
  rule out: tick overflow, size overflow of small files, exhausted unlimited budgets.
 */
module ScoreBounds {
  import opened Base
  import opened Smf
  import opened Wire
  import opened ScoreTypes
  import opened TrackModel
  import opened TrackInvariants
  import opened TrackTotals
  import opened Scores
  import opened ScoreEmission
  import opened ScoreGrammar
  import Utf8

  // ----- Invariants

  /** The finished part of a score after `bytes` bytes of the file. */
  ghost predicate ScoreWithin(policy: Policy, s: Score, events: nat, noteStarts: nat, bytes: nat) {
    && 2 * events <= bytes && noteStarts <= events
    && |s.textData| <= 3 * bytes
    && (policy.Some? ==> events <= policy.value.maxEvents && |s.textData| <= policy.value.maxTextBytes)
    && Tiled(s)
  }

  /** A track in progress after `p` bytes of its payload, `bytes` bytes into the file. */
  ghost predicate RunWithin(policy: Policy, run: Run, p: nat, bytes: nat) {
    && Valid(run.model) && InOrder(run.model, run.time)
    && run.time <= p * 0x1000_0000
    && ScoreWithin(policy, run.score, run.events, run.noteStarts, bytes)
    && RowCount(run.score) + ModelRows(run.model, false) <= run.events
    && |run.score.pedals| + ModelRows(run.model, true) <= run.events
  }

  ghost predicate FileWithin(policy: Policy, f: FileRun, sourceTrack: nat, bytes: nat) {
    && ScoreWithin(policy, f.score, f.events, f.noteStarts, bytes)
    && RowCount(f.score) <= f.events && |f.score.pedals| <= f.events
    && Ascending(f.score.tracks, sourceTrack * KEYS)
  }

  /** A budget that `bytes` bytes of input cannot exhaust. */
  predicate Covers(policy: Policy, bytes: nat) {
    policy.None? || (
      && policy.value.maxEvents >= bytes
      && policy.value.maxNoteStarts >= bytes
      && policy.value.maxTextBytes >= 0x2_0000_0000
      && policy.value.maxTrackBytes >= U32_MAX
      && policy.value.maxSourceTracks == U16_MAX
      && policy.value.maxInputBytes >= bytes)
  }

  /** The errors a score parse can add to those of the wire grammar. */
  predicate Added(policy: Policy, grammar: Grammar, e: ParseError, bytes: nat) {
    match e.kind
    case InvalidMetaEvent(_, _) => true
    case InvalidTimeSignatureDenominator(_) => true
    case SizeOverflow => 3 * bytes > U32_MAX
    case ResourceLimitExceeded(_, _) => policy.Some? && !Covers(policy, bytes)
    case InvalidEndOfTrackLength(_) => grammar.Strict?
    case MissingEndOfTrack => grammar.Strict?
    case EventAfterEndOfTrack => grammar.Strict?
    case InvalidTicksPerQuarter => grammar.Strict?
    case InvalidSmpteDivision(_, _) => grammar.Strict?
    case TrailingBytes => grammar.Strict?
    case _ => false
  }

  lemma AddedLater(policy: Policy, from: Grammar, grammar: Grammar, e: ParseError, bytes: nat, more: nat)
    requires (from == Legacy || from == grammar) && Added(policy, from, e, bytes) && bytes <= more
    ensures Added(policy, grammar, e, more)
  {}

  // ----- One event

  lemma PushTextWithin(policy: Policy, s: Score, text: Bytes, offset: nat, end: nat, bytes: nat, later: nat)
    requires |s.textData| <= 3 * bytes && |text| < 0x1000_0000 && bytes + |text| <= later
    ensures match PushText(policy, s, text, offset, end)
            case Ok(pushed) =>
              && pushed.0 == s.(textData := pushed.0.textData)
              && |pushed.0.textData| <= 3 * later
              && (policy.Some? ==> |pushed.0.textData| <= policy.value.maxTextBytes)
            case Err(e) =>
              || (e.kind.SizeOverflow? && 3 * later > U32_MAX)
              || (e.kind.ResourceLimitExceeded? && policy.Some? && policy.value.maxTextBytes < 0x2_0000_0000)
  {
    Utf8.NormalizeBounded(text);
  }

  lemma ApplyMetaWithin(policy: Policy, run: Run, metaType: u8, payload: Bytes, offset: nat, end: nat, p: nat, bytes: nat, later: nat)
    requires RunWithin(policy, run, p, bytes) && |payload| < 0x1000_0000 && bytes + |payload| <= later
    requires RowCount(run.score) + ModelRows(run.model, false) < run.events
    ensures match ApplyMeta(policy, run, metaType, payload, offset, end)
            case Ok(r) => RunWithin(policy, r, p, later)
            case Err(e) => Added(policy, Legacy, e, later)
  {
    hide Shaped, Indexed, Queued, InOrder, AddLyric, ModelRows, Tiled;
    PushTextWithin(policy, run.score, payload, offset, end, bytes, later);
    var pushed := PushText(policy, run.score, payload, offset, end);
    if pushed.Ok? {
      AddLyricInOrder(run.model, run.time, pushed.value.1);
      AddLyricRows(run.model, run.time, pushed.value.1, false);
      AddLyricRows(run.model, run.time, pushed.value.1, true);
    }
    hide PushText;
    var r := ApplyMeta(policy, run, metaType, payload, offset, end);
    if r.Ok? {
      TiledText(run.score, r.value.score);
    }
  }

  /** Tiling looks only at the tracks and their columns. */
  lemma TiledText(s: Score, s': Score)
    requires Tiled(s)
    requires s' == s.(textData := s'.textData, tempos := s'.tempos, timeSignatures := s'.timeSignatures,
                      keySignatures := s'.keySignatures, markers := s'.markers)
    ensures Tiled(s')
  {}

  lemma ApplyChannelWithin(policy: Policy, run: Run, status: ChannelStatus, first: u7, second: u7, offset: nat, p: nat, bytes: nat)
    requires RunWithin(policy, run, p, bytes)
    requires run.noteStarts < run.events
    requires RowCount(run.score) + ModelRows(run.model, false) < run.events
    requires |run.score.pedals| + ModelRows(run.model, true) < run.events
    ensures match ApplyChannel(policy, run, status, first, second, offset)
            case Ok(r) => RunWithin(policy, r, p, bytes)
            case Err(e) => Added(policy, Legacy, e, bytes)
  {
    hide Shaped, Indexed, Queued, InOrder, Apply, ModelRows, Tiled;
    var op := OpOf(status, first, second);
    ApplyInOrder(run.model, op, run.time, run.time);
    ApplyRows(run.model, op, run.time, false);
    ApplyRows(run.model, op, run.time, true);
  }

  /** One event read from `size` bytes, its time already advanced. */
  lemma PerformWithin(policy: Policy, run: Run, e: TimedEvent, p: nat, bytes: nat, size: nat)
    requires RunWithin(policy, run, p, bytes)
    requires |PayloadOf(e.event)| < 0x1000_0000 && |PayloadOf(e.event)| + 2 <= size
    ensures match Perform(policy, run, e)
            case Ok(r) => RunWithin(policy, r, p, bytes + size)
            case Err(error) => Added(policy, Legacy, error, bytes + size)
  {
    hide Shaped, Indexed, Queued, InOrder, ApplyChannel, ApplyMeta, ModelRows, Tiled, RowCount;
    var events := ChargeEvent(policy, run.events, e.offset);
    if events.Ok? {
      var charged := run.(events := events.value);
      match e.event {
        case Channel(status, first, second) =>
          ApplyChannelWithin(policy, charged, status, first, second, e.offset, p, bytes + size);
        case Meta(metaType, payload) =>
          ApplyMetaWithin(policy, charged, metaType, payload, e.offset, e.end, p, bytes + 2, bytes + size);
        case SysEx(_, _) =>
      }
    }
  }

  // ----- One track

  /** The first wire error of a trace, if any: what the structural scan reports. */
  function TraceError(t: Trace): Option<ParseError> {
    match t
    case End => None
    case Bad(_, e) => Some(e)
    case Step(_, rest) => TraceError(rest)
  }

  /** Each event starts where the one before it ends; the first at `start`, and nothing is left before `end`. */
  predicate Consecutive(es: seq<TimedEvent>, start: nat, end: nat) {
    if es == [] then start == end
    else es[0].deltaOffset == start && start < es[0].offset < es[0].end && Consecutive(es[1..], es[0].end, end)
  }

  /** The running status behind some events. */
  function RunningBehind(es: seq<TimedEvent>, running: Running): Running {
    if es == [] then running else RunningAfter(es[|es| - 1].event)
  }

  /** The event that would start here cannot be read, for this reason. */
  predicate FailsAt(d: Bytes, p: nat, base: nat, running: Running, error: Option<ParseError>)
    requires p <= |d|
  {
    match VlqAt(d, p, base)
    case Err(e) => error == Some(e)
    case Ok(delta) => EventAt(d, delta.next, base, running).Err? && error == Some(EventAt(d, delta.next, base, running).error)
  }

  /**
    The events of a payload lie end to end from its first byte: they fill it if
    decoding meets no error, and otherwise the event that fails is the one that
    would start where they stop.
   */
  lemma {:induction false} EventsTile(d: Bytes, p: nat, base: nat, running: Running) returns (end: nat)
    requires p <= |d|
    ensures var t := TraceFrom(d, p, base, running);
            && p <= end <= |d| && Consecutive(EventsOf(t), base + p, base + end)
            && (TraceError(t).None? <==> end == |d|)
            && (end < |d| ==> FailsAt(d, end, base, RunningBehind(EventsOf(t), running), TraceError(t)))
    decreases |d| - p
  {
    hide VlqAt, EventAt, Consecutive;
    var t := TraceFrom(d, p, base, running);
    end := p;
    NoneConsecutive(base + p);
    if t.Step? {
      var next := EventAt(d, VlqAt(d, p, base).value.next, base, running).value.next;
      end := EventsTile(d, next, base, RunningAfter(t.head.event));
      ConsecutivePrepend(t.head, EventsOf(t.rest), base + p, base + end);
      RunningPrepend(t.head, EventsOf(t.rest), running);
    }
  }

  lemma NoneConsecutive(start: nat)
    ensures Consecutive([], start, start)
  {}

  lemma RunningPrepend(e: TimedEvent, es: seq<TimedEvent>, running: Running)
    ensures RunningBehind([e] + es, running) == RunningBehind(es, RunningAfter(e.event))
  {}

  lemma ConsecutivePrepend(e: TimedEvent, es: seq<TimedEvent>, start: nat, end: nat)
    requires e.deltaOffset == start && start < e.offset < e.end && Consecutive(es, e.end, end)
    ensures Consecutive([e] + es, start, end)
  {
    assert ([e] + es)[1..] == es;
  }

  /** A track ends within bounds, or fails as its trace does or with an error the score decoder adds. */
  ghost predicate TrackOutcome(policy: Policy, grammar: Grammar, r: Result<Run, ParseError>, t: Trace, p: nat, bytes: nat) {
    match r
    case Ok(run) => RunWithin(policy, run, p, bytes) && (grammar.Legacy? ==> TraceError(t).None?)
    case Err(e) => Added(policy, grammar, e, bytes) || TraceError(t) == Some(e)
  }

  lemma RunWithinLater(policy: Policy, run: Run, p: nat, bytes: nat, q: nat, more: nat)
    requires RunWithin(policy, run, p, bytes) && p <= q && bytes <= more
    ensures RunWithin(policy, run, q, more)
  {
    hide Valid, InOrder, Tiled;
  }

  lemma AdvanceWithin(policy: Policy, run: Run, p: nat, bytes: nat, delta: u28, deltaOffset: nat)
    requires RunWithin(policy, run, p, bytes) && p <= U32_MAX
    ensures var time := Advance(run.time, delta, deltaOffset);
            time.Ok? && RunWithin(policy, run.(time := time.value), p + 1, bytes)
  {
    hide Shaped, Indexed, Queued, Tiled;
    InOrderLater(run.model, run.time, run.time + delta);
  }

  lemma EndTrackWithin(policy: Policy, grammar: Grammar, run: Run, e: TimedEvent, p: nat, bytes: nat, q: nat, more: nat)
    requires RunWithin(policy, run, p, bytes) && p <= q && bytes + 2 <= more && e.event.Meta?
    ensures match EndTrack(policy, grammar, run, e)
            case Ok(r) => RunWithin(policy, r, q, more)
            case Err(error) => Added(policy, grammar, error, more)
  {
    hide Valid, InOrder, Tiled;
  }

  lemma {:induction false} RunTraceWithin(policy: Policy, grammar: Grammar, d: Bytes, p: nat, base: nat, running: Running, run: Run)
    requires p <= |d| <= U32_MAX && RunWithin(policy, run, p, base + p)
    ensures TrackOutcome(policy, grammar, RunTrace(policy, grammar, TraceFrom(d, p, base, running), run, base + |d|),
                         TraceFrom(d, p, base, running), |d|, base + |d|)
    decreases |d| - p
  {
    hide Valid, InOrder, ScoreWithin, Advance, Perform, EndTrack, EventAt, VlqAt;
    var t := TraceFrom(d, p, base, running);
    match t {
      case End =>
      case Bad(None, _) =>
      case Bad(Some(delta), _) => AdvanceWithin(policy, run, p, base + p, delta.value, delta.next);
      case Step(head, rest) =>
        var time := Advance(run.time, head.delta, head.deltaOffset);
        AdvanceWithin(policy, run, p, base + p, head.delta, head.deltaOffset);
        var now := run.(time := time.value);
        var next := EventAt(d, VlqAt(d, p, base).value.next, base, running).value.next;
        RunWithinLater(policy, now, p + 1, base + p, next, base + p);
        if grammar.StopsAtEndOfTrack() && IsEndOfTrack(head.event) {
          EndTrackWithin(policy, grammar, now, head, next, base + p, |d|, base + |d|);
        } else {
          PerformWithin(policy, now, head, next, base + p, next - p);
          match Perform(policy, now, head)
          case Ok(run') => RunTraceWithin(policy, grammar, d, next, base, RunningAfter(head.event), run');
          case Err(e) => AddedLater(policy, Legacy, grammar, e, base + next, base + |d|);
        }
    }
  }

  // ----- The file

  lemma StartWithin(policy: Policy, f: FileRun, sourceTrack: nat, base: nat)
    requires FileWithin(policy, f, sourceTrack, base)
    ensures RunWithin(policy, TrackStart(f), 0, base)
  {
    hide Tiled, Ascending, RowCount;
    EmptyModelInOrder(0);
    EmptyModelRows(false);
    EmptyModelRows(true);
  }

  /** Emission keeps a finished track within bounds. */
  lemma EmissionWithin(policy: Policy, run: Run, p: nat, end: nat, sourceTrack: nat)
    requires RunWithin(policy, run, p, end) && Ascending(run.score.tracks, sourceTrack * KEYS)
    ensures match EmitFrom(run.model, 0, sourceTrack, run.name, run.score, end)
            case Ok(s) =>
              FileWithin(policy, FileRun(s, run.events, run.noteStarts), sourceTrack + 1, end) && s.header == run.score.header
            case Err(e) => e.kind.SizeOverflow? && 3 * end > U32_MAX
  {
    hide Valid, InOrder, Tiled, Ascending, EmitFrom, RowCount;
    var m, name, s := run.model, run.name, run.score;
    RowsFromAll(m.groups, |m.groups|, false);
    RowsFromAll(m.groups, |m.groups|, true);
    EmitFromRows(m, 0, sourceTrack, name, s, end);
    if EmitFrom(m, 0, sourceTrack, name, s, end).Ok? {
      EmitFromTiles(m, 0, sourceTrack, name, s, end);
      EmitFromAscends(m, 0, sourceTrack, name, s, end);
      EmitFromKeepsText(m, 0, sourceTrack, name, s, end);
    }
  }

  lemma ScoreTrackWithin(policy: Policy, grammar: Grammar, body: Bytes, base: nat, sourceTrack: nat, f: FileRun)
    requires |body| <= U32_MAX && FileWithin(policy, f, sourceTrack, base)
    ensures match ScoreTrack(policy, grammar, body, base, sourceTrack, f)
            case Ok(f') =>
              && FileWithin(policy, f', sourceTrack + 1, base + |body|)
              && f'.score.header == f.score.header
              && (grammar.Legacy? ==> TraceError(TraceOf(body, base)).None?)
            case Err(e) => Added(policy, grammar, e, base + |body|) || TraceError(TraceOf(body, base)) == Some(e)
  {
    hide Valid, RunWithin, Ascending, RunTrace, TraceFrom, EmitFrom, EmptyModel, ScoreWithin, RowCount;
    var run, end := TrackStart(f), base + |body|;
    StartWithin(policy, f, sourceTrack, base);
    StartModelValid(f);
    RunTraceWithin(policy, grammar, body, 0, base, None, run);
    RunKeepsTracks(policy, grammar, TraceOf(body, base), run, end);
    var ran := RunTrace(policy, grammar, TraceOf(body, base), run, end);
    if ran.Ok? {
      EmissionWithin(policy, ran.value, |body|, end, sourceTrack);
    }
  }

  lemma StartModelValid(f: FileRun)
    ensures Valid(TrackStart(f).model)
  {
    EmptyModelValid();
  }

  /** Reading events never touches the tracks already emitted. */
  lemma {:induction false} RunKeepsTracks(policy: Policy, grammar: Grammar, t: Trace, run: Run, trackEnd: nat)
    requires Valid(run.model)
    ensures RunTrace(policy, grammar, t, run, trackEnd).Ok? ==>
              var s := RunTrace(policy, grammar, t, run, trackEnd).value.score;
              s.tracks == run.score.tracks && s.segments == run.score.segments && s.header == run.score.header
    decreases t
  {
    hide Valid, Perform;
    if t.Step? && Advance(run.time, t.head.delta, t.head.deltaOffset).Ok? {
      var now := run.(time := run.time + t.head.delta);
      PerformValid(policy, now, t.head);
      PerformKeepsTracks(policy, now, t.head);
      if Perform(policy, now, t.head).Ok? {
        RunKeepsTracks(policy, grammar, t.rest, Perform(policy, now, t.head).value, trackEnd);
      }
    }
  }

  lemma PerformKeepsTracks(policy: Policy, run: Run, e: TimedEvent)
    requires Valid(run.model)
    ensures Perform(policy, run, e).Ok? ==>
              var s := Perform(policy, run, e).value.score;
              s.tracks == run.score.tracks && s.segments == run.score.segments && s.header == run.score.header
  {
    hide Valid, AddLyric, Apply;
  }

  lemma EmitFromKeepsText(m: Model, key: nat, sourceTrack: nat, name: TextRange, s: Score, end: nat)
    requires Valid(m) && key <= KEYS && Tiled(s) && EmitFrom(m, key, sourceTrack, name, s, end).Ok?
    ensures var s' := EmitFrom(m, key, sourceTrack, name, s, end).value;
            s'.textData == s.textData && s'.header == s.header
  {
    hide Valid, EmitFrom;
    EmitFromEmits(m, key, sourceTrack, name, s, end);
  }

  /** The first wire error of the chunks, framing and tracks alike. */
  function ChunksError(c: Chunks): Option<ParseError> {
    match c
    case NoMore(_, _) => None
    case BadChunk(_, e) => Some(e)
    case Chunk(_, body, base, rest) =>
      var e := TraceError(TraceOf(body, base));
      if e.Some? then e else ChunksError(rest)
  }

  /** Where reading stops when all chunks are framed. */
  function ChunksEnd(c: Chunks): Option<(nat, nat)> {
    match c
    case NoMore(consumed, trailing) => Some((consumed, trailing))
    case BadChunk(_, _) => None
    case Chunk(_, _, _, rest) => ChunksEnd(rest)
  }

  /** What is true of every returned score. */
  ghost predicate Sound(policy: Policy, s: Score, bytes: nat) {
    && Tiled(s)
    && (exists bound :: Ascending(s.tracks, bound))
    && 2 * RowCount(s) <= bytes
    && |s.textData| <= 3 * bytes
    && (policy.Some? ==> RowCount(s) <= policy.value.maxEvents && |s.textData| <= policy.value.maxTextBytes)
  }

  ghost predicate FileOutcome(policy: Policy, grammar: Grammar, r: Result<Score, ParseError>, c: Chunks, header: Header, bytes: nat) {
    match r
    case Ok(s) =>
      && Sound(policy, s, bytes)
      && s.header == header
      && ChunksEnd(c) == Some((s.bytesConsumed, s.trailingBytes))
      && (grammar.Legacy? ==> ChunksError(c).None?)
    case Err(e) =>
      || Added(policy, grammar, e, bytes)
      || (if grammar.Legacy? then ChunksError(c) == Some(e) else Structural(e.kind))
  }

  lemma {:induction false} TraceErrorStructural(d: Bytes, p: nat, base: nat, running: Running)
    requires p <= |d|
    ensures var e := TraceError(TraceFrom(d, p, base, running)); e.Some? ==> Structural(e.value.kind)
    decreases |d| - p
  {
    hide EventAt, VlqAt;
    var t := TraceFrom(d, p, base, running);
    if t.Step? {
      TraceErrorStructural(d, EventAt(d, VlqAt(d, p, base).value.next, base, running).value.next, base, RunningAfter(t.head.event));
    }
  }

  lemma FileWithinLater(policy: Policy, f: FileRun, sourceTrack: nat, bytes: nat, more: nat)
    requires FileWithin(policy, f, sourceTrack, bytes) && bytes <= more
    ensures FileWithin(policy, f, sourceTrack, more)
  {
    hide Tiled, Ascending;
  }

  lemma SoundAtEnd(policy: Policy, f: FileRun, sourceTrack: nat, bytes: nat, consumed: nat, trailing: nat)
    requires FileWithin(policy, f, sourceTrack, bytes)
    ensures Sound(policy, f.score.(bytesConsumed := consumed, trailingBytes := trailing), bytes)
  {
    var s := f.score.(bytesConsumed := consumed, trailingBytes := trailing);
    assert Ascending(s.tracks, sourceTrack * KEYS);
  }

  lemma {:induction false} ScoreChunksWithin(policy: Policy, grammar: Grammar, data: Bytes, p: nat, count: nat, sourceTrack: nat, f: FileRun)
    requires p <= |data| && FileWithin(policy, f, sourceTrack, p)
    ensures FileOutcome(policy, grammar, ScoreChunks(policy, grammar, ChunksFrom(data, p, count), sourceTrack, f),
                        ChunksFrom(data, p, count), f.score.header, |data|)
    decreases count
  {
    hide FileWithin, Sound, ScoreTrack, FrameAt, TraceFrom;
    var c := ChunksFrom(data, p, count);
    match c {
      case NoMore(consumed, trailing) =>
        FileWithinLater(policy, f, sourceTrack, p, |data|);
        SoundAtEnd(policy, f, sourceTrack, |data|, consumed, trailing);
      case BadChunk(_, _) =>
      case Chunk(sizeOffset, body, base, rest) =>
        FileWithinLater(policy, f, sourceTrack, p, base);
        ScoreTrackWithin(policy, grammar, body, base, sourceTrack, f);
        TraceErrorStructural(body, 0, base, None);
        match ScoreTrack(policy, grammar, body, base, sourceTrack, f)
        case Ok(next) => ScoreChunksWithin(policy, grammar, data, base + |body|, count - 1, sourceTrack + 1, next);
        case Err(e) =>
          if Added(policy, grammar, e, base + |body|) {
            AddedLater(policy, grammar, grammar, e, base + |body|, |data|);
          }
    }
  }

  /**
    For every input, budget and grammar: a returned score is tiled and ascending
    and within its budget; a failure is the file's first wire error or one of the
    errors the score decoder adds. Tick overflow is never among them, size
    overflow only above a third of 4 GiB, and a covering budget never runs out.
   */
  lemma ScoreOutcome(policy: Policy, grammar: Grammar, data: Bytes)
    requires HeaderAt(data).Ok?
    ensures FileOutcome(policy, grammar, ScoreFile(policy, grammar, data), ChunksOf(data), HeaderAt(data).value.value, |data|)
  {
    hide HeaderAt, ScoreChunks, ChunksFrom, Sound, FileWithin, ChunksError, ChunksEnd;
    var header := HeaderAt(data).value;
    var f := FileRun(EmptyScore(header.value), 0, 0);
    EmptyWithin(policy, header.value, header.next);
    ScoreChunksWithin(policy, grammar, data, header.next, header.value.trackCount, 0, f);
    var r := ScoreChunks(policy, grammar, ChunksOf(data), 0, f);
    if r.Ok? {
      SortedSound(policy, r.value, |data|);
    }
  }

  lemma EmptyWithin(policy: Policy, header: Header, bytes: nat)
    ensures FileWithin(policy, FileRun(EmptyScore(header), 0, 0), 0, bytes)
  {}

  lemma SortedSound(policy: Policy, s: Score, bytes: nat)
    requires Sound(policy, s, bytes)
    ensures Sound(policy, SortGlobals(s), bytes)
  {
    var bound :| Ascending(s.tracks, bound);
    assert Ascending(SortGlobals(s).tracks, bound);
    TiledText(s, SortGlobals(s));
    hide Tiled, Ascending;
  }
}
