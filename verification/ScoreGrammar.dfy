/**
  The score decoder as a function of the wire grammar: what `parse_score_smf`
  and its bounded and strict variants return on every input.
 */
module ScoreGrammar {
  import opened Base
  import opened Smf
  import opened Wire
  import opened NoteColumns
  import opened ScoreTypes
  import opened TrackModel
  import opened TrackInvariants
  import opened Scores
  import opened StableSort
  import opened Bits
  import Utf8

  // ----- Budgets

  datatype Limits = Limits(
    maxInputBytes: u64,
    maxSourceTracks: u16,
    maxTrackBytes: u64,
    maxEvents: u64,
    maxNoteStarts: u64,
    maxTextBytes: u64)

  const UNLIMITED: Limits := Limits(U64_MAX, U16_MAX, U64_MAX, U64_MAX, U64_MAX, U64_MAX)

  /** The trusted parser has no limits at all and performs no checks. */
  type Policy = Option<Limits>

  function Exceeded(offset: nat, resource: ScoreResource, limit: nat): ParseError {
    At(offset, ResourceLimitExceeded(resource, limit))
  }

  function CheckInput(policy: Policy, bytes: nat): Result<(), ParseError> {
    if policy.Some? && bytes > policy.value.maxInputBytes then
      Err(Exceeded(0, InputBytes, policy.value.maxInputBytes))
    else Ok(())
  }

  function CheckSourceTracks(policy: Policy, count: u16, offset: nat): Result<(), ParseError> {
    if policy.Some? && count > policy.value.maxSourceTracks then
      Err(Exceeded(offset, SourceTracks, policy.value.maxSourceTracks))
    else Ok(())
  }

  function CheckTrackBytes(policy: Policy, bytes: nat, offset: nat): Result<(), ParseError> {
    if policy.Some? && bytes > policy.value.maxTrackBytes then
      Err(Exceeded(offset, TrackBytes, policy.value.maxTrackBytes))
    else Ok(())
  }

  /** The counter after one more event. */
  function ChargeEvent(policy: Policy, events: nat, offset: nat): Result<nat, ParseError> {
    if policy.Some? && events >= policy.value.maxEvents then
      Err(Exceeded(offset, Events, policy.value.maxEvents))
    else Ok(events + 1)
  }

  function ChargeNoteStart(policy: Policy, noteStarts: nat, offset: nat): Result<nat, ParseError> {
    if policy.Some? && noteStarts >= policy.value.maxNoteStarts then
      Err(Exceeded(offset, NoteStarts, policy.value.maxNoteStarts))
    else Ok(noteStarts + 1)
  }

  function CheckText(policy: Policy, total: nat, offset: nat): Result<(), ParseError> {
    if policy.Some? && total > policy.value.maxTextBytes then
      Err(Exceeded(offset, TextBytes, policy.value.maxTextBytes))
    else Ok(())
  }

  // ----- Grammars

  datatype Grammar = Legacy | Compatible | Strict {
    predicate StopsAtEndOfTrack() {
      !Legacy?
    }

    predicate RequiresEndOfTrack() {
      Strict?
    }

    predicate ValidatesDivision() {
      Strict?
    }

    predicate RejectsTrailingBytes() {
      Strict?
    }
  }

  function SignedByte(b: u8): i8 {
    if b < 0x80 then b else b - 0x100
  }

  /** A metrical division must be positive; an SMPTE one must name a known frame rate and resolution. */
  function ValidateDivision(division: u16, offset: nat): Result<(), ParseError> {
    if division < 0x8000 then
      if division != 0 then Ok(()) else Err(At(offset, InvalidTicksPerQuarter))
    else
      var frames, ticks := SignedByte(division / 0x100), division % 0x100;
      if frames !in {-24, -25, -29, -30} || ticks == 0 then Err(At(offset, InvalidSmpteDivision(frames, ticks)))
      else Ok(())
  }

  // ----- Track state

  datatype Run = Run(
    score: Score,
    model: Model,
    name: TextRange,
    time: u64,
    events: nat,
    noteStarts: nat)

  /** Appends normalized text; its offsets must fit a `u32` and its total the text budget. */
  function PushText(policy: Policy, s: Score, text: Bytes, offset: nat, end: nat)
    : Result<(Score, TextRange), ParseError>
  {
    var before, after := |s.textData|, |s.textData| + |Utf8.Normalize(text)|;
    if before > U32_MAX then Err(At(end, SizeOverflow))
    else
      var _ :- CheckText(policy, after, offset);
      if after > U32_MAX then Err(At(end, SizeOverflow))
      else Ok((s.(textData := s.textData + Utf8.Normalize(text)), TextRange(before, after - before)))
  }

  function InvalidLength(metaType: u8, payload: Bytes, offset: nat): ParseError {
    At(offset, InvalidMetaEvent(metaType, |payload|))
  }

  /** Recognised meta events with a payload of the wrong shape are errors. */
  function ValidateMeta(metaType: u8, payload: Bytes, offset: nat): Result<(), ParseError> {
    if metaType == 0x51 && |payload| != 3 then Err(InvalidLength(metaType, payload, offset))
    else if metaType == 0x58 && |payload| != 4 then Err(InvalidLength(metaType, payload, offset))
    else if metaType == 0x58 && payload[1] >= 64 then Err(At(offset, InvalidTimeSignatureDenominator(payload[1])))
    else if metaType == 0x59 && |payload| != 2 then Err(InvalidLength(metaType, payload, offset))
    else Ok(())
  }

  function MetaTempo(payload: Bytes): u32
    requires |payload| == 3
  {
    payload[0] as int * 0x1_0000 + payload[1] as int * 0x100 + payload[2] as int
  }

  function MetaTimeSignature(payload: Bytes): TimeSignature
    requires |payload| == 4 && payload[1] < 64
  {
    ShiftedOneFits(payload[1]);
    TimeSignature(payload[0], ShiftedOne(payload[1]))
  }

  function MetaKeySignature(payload: Bytes): KeySignature
    requires |payload| == 2
  {
    KeySignature(SignedByte(payload[0]), payload[1])
  }

  /** What a meta event contributes to the score. */
  function ApplyMeta(policy: Policy, run: Run, metaType: u8, payload: Bytes, offset: nat, end: nat)
    : (r: Result<Run, ParseError>)
    requires Valid(run.model)
  {
    var _ :- ValidateMeta(metaType, payload, offset);
    var s := run.score;
    if metaType == 0x03 then
      var pushed :- PushText(policy, s, payload, offset, end);
      Ok(run.(score := pushed.0, name := pushed.1))
    else if metaType == 0x05 && payload != [] then
      var pushed :- PushText(policy, s, payload, offset, end);
      Ok(run.(score := pushed.0, model := AddLyric(run.model, run.time, pushed.1)))
    else if metaType == 0x06 && payload != [] then
      var pushed :- PushText(policy, s, payload, offset, end);
      Ok(run.(score := pushed.0.(markers := s.markers + [Timed(run.time, pushed.1)])))
    else if metaType == 0x51 then
      Ok(run.(score := s.(tempos := s.tempos + [Timed(run.time, MetaTempo(payload))])))
    else if metaType == 0x58 then
      Ok(run.(score := s.(timeSignatures := s.timeSignatures + [Timed(run.time, MetaTimeSignature(payload))])))
    else if metaType == 0x59 then
      Ok(run.(score := s.(keySignatures := s.keySignatures + [Timed(run.time, MetaKeySignature(payload))])))
    else Ok(run)
  }

  /** What a channel message contributes; starting a note is charged first. */
  function ApplyChannel(policy: Policy, run: Run, status: ChannelStatus, first: u7, second: u7, offset: nat)
    : (r: Result<Run, ParseError>)
    requires Valid(run.model)
  {
    var op := OpOf(status, first, second);
    if op.NoteOn? then
      var noteStarts :- ChargeNoteStart(policy, run.noteStarts, offset);
      var model :- Apply(run.model, op, run.time);
      Ok(run.(model := model, noteStarts := noteStarts))
    else
      var model :- Apply(run.model, op, run.time);
      Ok(run.(model := model))
  }

  /** One event at the time already advanced to. */
  function Perform(policy: Policy, run: Run, e: TimedEvent): (r: Result<Run, ParseError>)
    requires Valid(run.model)
  {
    match e.event
    case Channel(status, first, second) =>
      var events :- ChargeEvent(policy, run.events, e.offset);
      ApplyChannel(policy, run.(events := events), status, first, second, e.offset)
    case Meta(metaType, payload) =>
      var _ :- ValidateMeta(metaType, payload, e.offset);
      var events :- ChargeEvent(policy, run.events, e.offset);
      ApplyMeta(policy, run.(events := events), metaType, payload, e.offset, e.end)
    case SysEx(_, _) =>
      var events :- ChargeEvent(policy, run.events, e.offset);
      Ok(run.(events := events))
  }

  lemma PerformValid(policy: Policy, run: Run, e: TimedEvent)
    requires Valid(run.model)
    ensures Perform(policy, run, e).Ok? ==> Valid(Perform(policy, run, e).value.model)
  {
    hide Shaped, Indexed, Queued, Apply, AddLyric;
    match e.event {
      case Channel(status, first, second) => ApplyValid(run.model, OpOf(status, first, second), run.time);
      case Meta(metaType, payload) =>
        var s := run.score;
        var pushed := PushText(policy, s, payload, e.offset, e.end);
        if pushed.Ok? {
          AddLyricValid(run.model, run.time, pushed.value.1);
        }
      case SysEx(_, _) =>
    }
  }

  function Advance(time: u64, delta: u28, deltaOffset: nat): Result<u64, ParseError> {
    if time + delta > U64_MAX then Err(At(deltaOffset, TickOverflow)) else Ok(time + delta)
  }

  predicate IsEndOfTrack(event: Event) {
    event.Meta? && event.metaType == END_OF_TRACK
  }

  /** The first End-of-Track ends the track; strictly it must be empty and last. */
  function EndTrack(policy: Policy, grammar: Grammar, run: Run, e: TimedEvent): Result<Run, ParseError>
    requires e.event.Meta?
  {
    if grammar.RequiresEndOfTrack() && e.event.payload != [] then
      Err(At(e.offset, InvalidEndOfTrackLength(|e.event.payload|)))
    else
      var events :- ChargeEvent(policy, run.events, e.offset);
      if grammar.RequiresEndOfTrack() && e.remaining != 0 then Err(At(e.end, EventAfterEndOfTrack))
      else Ok(run.(events := events))
  }

  /** Runs one track; `trackEnd` is the absolute end of its payload. */
  function RunTrace(policy: Policy, grammar: Grammar, t: Trace, run: Run, trackEnd: nat): (r: Result<Run, ParseError>)
    requires Valid(run.model)
    ensures r.Ok? ==> Valid(r.value.model)
    decreases t
  {
    match t
    case End =>
      if grammar.RequiresEndOfTrack() then Err(At(trackEnd, MissingEndOfTrack)) else Ok(run)
    case Bad(None, e) => Err(e)
    case Bad(Some(delta), e) =>
      var _ :- Advance(run.time, delta.value, delta.next);
      Err(e)
    case Step(head, rest) =>
      var time :- Advance(run.time, head.delta, head.deltaOffset);
      var now := run.(time := time);
      if grammar.StopsAtEndOfTrack() && IsEndOfTrack(head.event) then EndTrack(policy, grammar, now, head)
      else
        PerformValid(policy, now, head);
        var next :- Perform(policy, now, head);
        RunTrace(policy, grammar, rest, next, trackEnd)
  }

  // ----- The file

  /** The score so far and the counters of the budget. */
  datatype FileRun = FileRun(score: Score, events: nat, noteStarts: nat)

  function TrackStart(f: FileRun): Run {
    Run(f.score, EmptyModel(), TextRange(0, 0), 0, f.events, f.noteStarts)
  }

  function ScoreTrack(policy: Policy, grammar: Grammar, body: Bytes, base: nat, sourceTrack: nat, f: FileRun)
    : Result<FileRun, ParseError>
  {
    EmptyModelValid();
    var run :- RunTrace(policy, grammar, TraceOf(body, base), TrackStart(f), base + |body|);
    var score :- EmitFrom(run.model, 0, sourceTrack, run.name, run.score, base + |body|);
    Ok(FileRun(score, run.events, run.noteStarts))
  }

  function ScoreChunks(policy: Policy, grammar: Grammar, c: Chunks, sourceTrack: nat, f: FileRun)
    : Result<Score, ParseError>
    decreases c
  {
    match c
    case NoMore(consumed, trailing) =>
      if grammar.RejectsTrailingBytes() && trailing != 0 then Err(At(consumed, TrailingBytes))
      else Ok(f.score.(bytesConsumed := consumed, trailingBytes := trailing))
    case BadChunk(None, e) => Err(e)
    case BadChunk(Some(size), e) =>
      var _ :- CheckTrackBytes(policy, size.value, size.next);
      Err(e)
    case Chunk(sizeOffset, body, base, rest) =>
      var _ :- CheckTrackBytes(policy, |body|, sizeOffset);
      var next :- ScoreTrack(policy, grammar, body, base, sourceTrack, f);
      ScoreChunks(policy, grammar, rest, sourceTrack + 1, next)
  }

  /** The header with the additional checks of the score decoder, in reading order. */
  function ScoreHeaderAt(policy: Policy, grammar: Grammar, data: Bytes): (r: Reading<Header>)
    ensures r.Ok? ==> HeaderAt(data) == r
  {
    var header :- HeaderAt(data);
    var _ :- CheckSourceTracks(policy, header.value.trackCount, 10);
    var _ :- if grammar.ValidatesDivision() then ValidateDivision(header.value.division, 12) else Ok(());
    Ok(header)
  }

  /** Score-wide rows are ordered by tick, stably, once all tracks are read. */
  function SortGlobals(s: Score): Score {
    s.(tempos := Sort(s.tempos), timeSignatures := Sort(s.timeSignatures),
       keySignatures := Sort(s.keySignatures), markers := Sort(s.markers))
  }

  function ScoreFile(policy: Policy, grammar: Grammar, data: Bytes): Result<Score, ParseError> {
    var _ :- CheckInput(policy, |data|);
    var header :- ScoreHeaderAt(policy, grammar, data);
    var score :- ScoreChunks(policy, grammar, ChunksFrom(data, header.next, header.value.trackCount), 0,
                             FileRun(EmptyScore(header.value), 0, 0));
    Ok(SortGlobals(score))
  }
}
