/** Inputs at which the score decoder and its documentation or its siblings part ways. */
module Witnesses {
  import opened Base
  import opened Smf
  import opened Wire
  import opened Scan
  import opened ScoreTypes
  import opened TrackModel
  import opened TrackInvariants
  import opened TrackRuns
  import opened TrackRows
  import opened TrackPlacement
  import opened Scores
  import opened ScoreEmission
  import opened ScoreGrammar
  import opened ScoreTheorems
  import opened ScoreFaults
  import opened Corpus
  import opened CorpusDecoding
  import opened CorpusTheorems
  import opened Printer
  import opened VlqCodec
  import EventArena
  import Utf8

  // ----- Bytes behind the first End-of-Track

  /** An End-of-Track, then a delta time without an event. */
  const LOOSE_TAIL: Bytes := [0x00, 0xFF, 0x2F, 0x00, 0x00]

  function OneTrackFile(body: Bytes): Bytes
    requires |body| <= U32_MAX
  {
    HeaderBytes(1) + ChunkBytes(body)
  }

  lemma OneTrackChunks(body: Bytes)
    requires |body| <= U32_MAX
    ensures var data := OneTrackFile(body);
            && HeaderAt(data) == Ok(Read(Header(Parallel, 1, 480), 14))
            && ChunksFrom(data, 14, 1) == Chunk(18, body, 22, NoMore(|data|, 0))
  {
    var data := OneTrackFile(body);
    assert |HeaderBytes(1)| == 14 && |ChunkBytes(body)| == 8 + |body|;
    assert StandsAt(data, 0, HeaderBytes(1)) && StandsAt(data, 14, ChunkBytes(body));
    hide HeaderBytes, ChunkBytes, FrameAt;
    HeaderPrinted(data, 1);
    FramePrinted(data, 14, body);
    assert ChunksFrom(data, |data|, 0) == NoMore(|data|, 0);
  }

  lemma LooseTailTrace(base: nat)
    ensures TraceOf(LOOSE_TAIL, base)
         == Step(TimedEvent(base, 0, base + 1, Meta(END_OF_TRACK, []), base + 4, 1),
                 Bad(Some(Read(0, base + 4)), At(base + 5, UnexpectedEnd)))
  {
    var d := LOOSE_TAIL;
    assert VlqAt(d, 0, base) == Ok(Read(0, 1)) && VlqAt(d, 3, base) == Ok(Read(0, 4)) && VlqAt(d, 4, base) == Ok(Read(0, 5));
    assert EventAt(d, 1, base, None) == Ok(Read(Meta(END_OF_TRACK, []), 4));
    assert TraceFrom(d, 4, base, None) == Bad(Some(Read(0, base + 4)), At(base + 5, UnexpectedEnd));
  }

  /** The compatible parser accepts this file; the scan and the legacy parser do not. */
  lemma CompatibleWithoutScan()
    ensures var data := OneTrackFile(LOOSE_TAIL);
            && ScoreFile(None, Compatible, data).Ok?
            && ScanFile(data) == Err(At(27, UnexpectedEnd))
            && ScoreFile(None, Legacy, data) == Err(At(27, UnexpectedEnd))
  {
    hide ChunksFrom, HeaderAt, TraceFrom, OneTrackFile, EmptyModel;
    var data := OneTrackFile(LOOSE_TAIL);
    OneTrackChunks(LOOSE_TAIL);
    LooseTailTrace(22);
    var f := FileRun(EmptyScore(Header(Parallel, 1, 480)), 0, 0);
    LooseTailScores(f);
    var end := NoMore(|data|, 0);
    assert ScoreChunks(None, Compatible, end, 1, ScoreTrack(None, Compatible, LOOSE_TAIL, 22, 0, f).value).Ok?;
    assert ScanChunks(Chunk(18, LOOSE_TAIL, 22, end), Started(Header(Parallel, 1, 480))) == Err(At(27, UnexpectedEnd));
  }

  lemma NothingEmitted(m: Model, sourceTrack: nat, name: TextRange, s: Score, end: nat)
    requires Valid(m) && m.index == map[]
    ensures EmitFrom(m, 0, sourceTrack, name, s, end) == Ok(s)
  {
    EmitFromSkips(m, 0, KEYS, sourceTrack, name, s, end);
    EmitFromLast(m, sourceTrack, name, s, end);
  }

  lemma LooseTailScores(f: FileRun)
    ensures ScoreTrack(None, Compatible, LOOSE_TAIL, 22, 0, f).Ok?
    ensures ScoreTrack(None, Legacy, LOOSE_TAIL, 22, 0, f) == Err(At(27, UnexpectedEnd))
  {
    hide TraceFrom, EmptyModel, Valid, EmitFrom;
    LooseTailTrace(22);
    EmptyModelIsValid();
    NothingEmitted(EmptyModel(), 0, TextRange(0, 0), f.score, 27);
  }

  lemma EmptyModelIsValid()
    ensures Valid(EmptyModel()) && EmptyModel().index == map[]
  {
    EmptyModelValid();
  }

  // ----- Rows that never reach the score

  /** One control change and no note. */
  const LONE_CONTROL: Bytes := [0x00, 0xB0, 0x07, 0x64, 0x00, 0xFF, 0x2F, 0x00]

  lemma LoneControlTrace(base: nat)
    ensures TraceOf(LONE_CONTROL, base)
         == Step(TimedEvent(base, 0, base + 1, Channel(0xB0, 7, 100), base + 4, 4),
                 Step(TimedEvent(base + 4, 0, base + 5, Meta(END_OF_TRACK, []), base + 8, 0), End))
  {
    var d := LONE_CONTROL;
    assert VlqAt(d, 0, base) == Ok(Read(0, 1)) && VlqAt(d, 4, base) == Ok(Read(0, 5)) && VlqAt(d, 7, base) == Ok(Read(0, 8));
    assert EventAt(d, 1, base, None) == Ok(Read(Channel(0xB0, 7, 100), 4));
    assert EventAt(d, 5, base, Some(0xB0)) == Ok(Read(Meta(END_OF_TRACK, []), 8));
    assert TraceFrom(d, 4, base, Some(0xB0)) == Step(TimedEvent(base + 4, 0, base + 5, Meta(END_OF_TRACK, []), base + 8, 0), End);
  }

  function EndOfTrackAt(base: nat): Trace {
    Step(TimedEvent(base + 4, 0, base + 5, Meta(END_OF_TRACK, []), base + 8, 0), End)
  }

  /** An End-of-Track alone changes nothing but the event count. */
  lemma EndOfTrackRuns(grammar: Grammar, base: nat, run: Run)
    requires Valid(run.model)
    ensures RunTrace(None, grammar, EndOfTrackAt(base), run, base + 8) == Ok(run.(events := run.events + 1))
    ensures TrackOps(None, grammar, EndOfTrackAt(base), run) == if grammar.Legacy? then [TimedOp(Ignored, run.time)] else []
  {
    hide Valid;
    assert run.(time := run.time) == run;
    assert RunTrace(None, grammar, End, run.(events := run.events + 1), base + 8)
        == if grammar.Strict? then Err(At(base + 8, MissingEndOfTrack)) else Ok(run.(events := run.events + 1));
  }

  lemma LoneControlRuns(grammar: Grammar, base: nat, f: FileRun) returns (run: Run)
    ensures Valid(TrackStart(f).model) && Valid(run.model) && run.model.index == map[]
    ensures run.score == f.score && run.name == TextRange(0, 0) && run.time == 0
    ensures RunTrace(None, grammar, TraceOf(LONE_CONTROL, base), TrackStart(f), base + 8) == Ok(run)
    ensures TrackOps(None, grammar, TraceOf(LONE_CONTROL, base), TrackStart(f))
         == [TimedOp(Control(0, 7, 100), 0)] + if grammar.Legacy? then [TimedOp(Ignored, 0)] else []
  {
    hide TraceFrom, EmptyModel, Valid, AddControl;
    LoneControlTrace(base);
    EmptyModelIsValid();
    var m := LoneControlModel();
    var next := TrackStart(f).(model := m, events := f.events + 1);
    EndOfTrackRuns(grammar, base, next);
    run := next.(events := next.events + 1);
  }

  /** The control is the track's first operation, yet every grammar's score lacks it. */
  lemma LoneControlDropped(grammar: Grammar, base: nat, sourceTrack: nat, f: FileRun)
    ensures Valid(TrackStart(f).model)
    ensures var ops := TrackOps(None, grammar, TraceOf(LONE_CONTROL, base), TrackStart(f));
            RowsFor(ops, |ops|, 0) == Rows([Timed(0, ControlChange(7, 100))], [], [])
    ensures var r := ScoreTrack(None, grammar, LONE_CONTROL, base, sourceTrack, f);
            r.Ok? && r.value.score == f.score
  {
    hide TraceFrom, EmptyModel, Valid, EmitFrom, RunTrace, TrackOps;
    var run := LoneControlRuns(grammar, base, f);
    NothingEmitted(run.model, sourceTrack, run.name, run.score, base + 8);
    var ops := TrackOps(None, grammar, TraceOf(LONE_CONTROL, base), TrackStart(f));
    assert RowsFor(ops, 0, 0) == NO_ROWS && RowsBy(ops, 0, 0) == Rows([Timed(0, ControlChange(7, 100))], [], []);
    assert RowsFor(ops, 1, 0) == Plus(RowsFor(ops, 0, 0), RowsBy(ops, 0, 0));
  }

  /** The state after the control: still without a group. */
  lemma LoneControlModel() returns (m: Model)
    ensures Valid(EmptyModel()) && m == AddControl(EmptyModel(), 0, 0, 7, 100) && Valid(m) && m.index == map[]
  {
    EmptyModelValid();
    m := AddControl(EmptyModel(), 0, 0, 7, 100);
    AddControlValid(EmptyModel(), 0, 0, 7, 100);
  }

  // ----- A generated file with too many rows

  predicate ShortPayloads(ms: seq<Message>) {
    forall i :: 0 <= i < |ms| ==> ms[i].event.Meta? ==> |ms[i].event.payload| <= 21
  }

  lemma {:induction false} PrintShort(ms: seq<PrintableMessage>, running: Running)
    requires ShortPayloads(ms)
    ensures |Print(ms, running, false)| <= 31 * |ms|
  {
    hide Vlq;
    if ms != [] {
      VlqShort(ms[0].delta);
      if ms[0].event.Meta? {
        VlqShort(|ms[0].event.payload|);
      }
      PrintShort(ms[1..], PrinterAfter(ms[0].event, running));
    }
  }

  lemma VlqShort(value: nat)
    requires value <= VLQ_MAX
    ensures |Vlq(value)| <= 4
  {
    VlqRoundTrip(Vlq(value), 0, 0, value);
  }

  lemma {:induction false} BlocksShort(trackIndex: u16, first: nat, notes: u32)
    requires first <= notes
    ensures ShortPayloads(Blocks(trackIndex, first, notes)) && |Blocks(trackIndex, first, notes)| <= 5 * (notes - first)
    decreases notes - first
  {
    if first < notes {
      BlocksShort(trackIndex, first + 1, notes);
      BlockShort(trackIndex, first);
    }
  }

  lemma BlockShort(trackIndex: u16, index: u32)
    ensures ShortPayloads(Block(trackIndex, index)) && |Block(trackIndex, index)| <= 5
  {}

  lemma ScriptShort(trackIndex: u16, notes: u32)
    ensures |GeneratedTrack(trackIndex, notes)| <= 31 * (5 * notes + 5)
  {
    hide Blocks, Print;
    BlocksShort(trackIndex, 0, notes);
    PrintShort(Script(trackIndex, notes), None);
  }

  /**
    The most tracks a file can declare, 65538 notes each: every track fits its
    chunk many times over and the file scans, but its notes exceed the score's
    offsets.
   */
  lemma TooManyNotes(grammar: Grammar)
    ensures TracksFit(65535, 65538) && !OffsetsFit(65535, 65538)
    ensures ScanFile(FileBytes(65535, 65538)).Ok? && ScoreFile(None, grammar, FileBytes(65535, 65538)).Err?
  {
    hide GeneratedTrack, TextTotal, ScanFile, ScoreFile, FileBytes;
    forall t: u16 | t < 65535 ensures |GeneratedTrack(t, 65538)| <= U32_MAX {
      ScriptShort(t, 65538);
    }
    GeneratedFileScans(65535, 65538);
    GeneratedFileScoresIff(grammar, 65535, 65538);
  }

  // ----- One data byte

  /** A channel pressure message and the End-of-Track. */
  const PRESSURE: Bytes := [0x00, 0xD0, 0x40, 0x00, 0xFF, 0x2F, 0x00]

  lemma PressureTrace(base: nat)
    ensures TraceOf(PRESSURE, base)
         == Step(TimedEvent(base, 0, base + 1, Channel(0xD0, 0x40, 0), base + 3, 4),
                 Step(TimedEvent(base + 3, 0, base + 4, Meta(END_OF_TRACK, []), base + 7, 0), End))
  {
    var d := PRESSURE;
    assert VlqAt(d, 0, base) == Ok(Read(0, 1)) && VlqAt(d, 3, base) == Ok(Read(0, 4)) && VlqAt(d, 6, base) == Ok(Read(0, 7));
    assert EventAt(d, 1, base, None) == Ok(Read(Channel(0xD0, 0x40, 0), 3));
    assert EventAt(d, 4, base, Some(0xD0)) == Ok(Read(Meta(END_OF_TRACK, []), 7));
    assert TraceFrom(d, 3, base, Some(0xD0)) == Step(TimedEvent(base + 3, 0, base + 4, Meta(END_OF_TRACK, []), base + 7, 0), End);
  }

  /** All three decoders read the pressure byte alone and find the End-of-Track behind it. */
  lemma PressureDecodes(grammar: Grammar)
    ensures var data := OneTrackFile(PRESSURE);
            && ScanFile(data).Ok? && ScanFile(data).value.channelEvents == 1 && ScanFile(data).value.metaEvents == 1
            && EventArena.ParseFile(data).Ok? && ScoreFile(None, grammar, data).Ok?
  {
    hide ChunksFrom, HeaderAt, TraceFrom, OneTrackFile, ScoreFile, EventArena.ParseFile, TrackFault;
    var data := OneTrackFile(PRESSURE);
    OneTrackChunks(PRESSURE);
    PressureTrace(22);
    var end := NoMore(|data|, 0);
    assert ScanChunks(Chunk(18, PRESSURE, 22, end), Started(Header(Parallel, 1, 480))).Ok?;
    OneTrackLength(PRESSURE);
    EventArena.ParseAgreesWithScan(data);
    PressureHasNoFault(grammar);
    assert ChunksFault(grammar, Chunk(18, PRESSURE, 22, end)) == None;
    SmallFilesFaultIff(grammar, data);
  }

  lemma PressureHasNoFault(grammar: Grammar)
    ensures TrackFault(grammar, TraceOf(PRESSURE, 22), 29) == None
  {
    hide TraceFrom;
    PressureTrace(22);
    var last := Step(TimedEvent(25, 0, 26, Meta(END_OF_TRACK, []), 29, 0), End);
    assert grammar.Legacy? ==> TrackFault(grammar, last.rest, 29) == None;
    assert TrackFault(grammar, last, 29) == None;
  }

  lemma OneTrackLength(body: Bytes)
    requires |body| <= U32_MAX
    ensures |OneTrackFile(body)| == 22 + |body|
  {}

  // ----- Text in another encoding

  /** Only the byte that begins no character is replaced; the text behind it stays. */
  lemma LatinText()
    ensures Utf8.Normalize([0xE9, 0x20, 0x63, 0x6F, 0x6E]) == [0xEF, 0xBF, 0xBD, 0x20, 0x63, 0x6F, 0x6E]
  {
    var s, rest: Bytes := [0xE9, 0x20, 0x63, 0x6F, 0x6E], [0x20, 0x63, 0x6F, 0x6E];
    assert s[1..] == rest;
    AsciiIsUtf8(rest);
    Utf8.NormalizeKeepsValid(rest);
    assert Utf8.StepAt(s) == Utf8.Malformed(1);
    hide Utf8.StepAt;
    assert Utf8.Normalize(s) == Utf8.REPLACEMENT + Utf8.Normalize(rest);
  }
}
