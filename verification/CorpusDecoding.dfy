/** Generated files against the structural decoders: every message comes back. */
module CorpusDecoding {
  import opened Base
  import opened Smf
  import opened Wire
  import opened Scan
  import opened EventArena
  import opened VlqCodec
  import opened Printer
  import opened Corpus

  // ----- The generator re-sends statuses after its markers

  lemma ResentStep(m: PrintableMessage, rest: seq<PrintableMessage>, printer: Running, decoder: Running)
    requires m.event.Channel? && printer == Some(m.event.status) ==> decoder == printer
    requires StatusResent(rest, PrinterAfter(m.event, printer), RunningAfter(m.event))
    ensures StatusResent([m] + rest, printer, decoder)
  {
    assert ([m] + rest)[1..] == rest;
  }

  /** Between blocks the decoder has the printer's status, or none while the printer's is a pitch bend's. */
  predicate BendBeforeMarker(trackIndex: u16, printer: Running, decoder: Running) {
    decoder == printer || (decoder == None && printer == Some(0xE0 + ChannelOf(trackIndex) as int))
  }

  lemma OutroResent(trackIndex: u16, printer: Running, decoder: Running)
    requires BendBeforeMarker(trackIndex, printer, decoder)
    ensures StatusResent(Outro(trackIndex), printer, decoder)
  {
    var first, last := Outro(trackIndex)[0], Outro(trackIndex)[1];
    ResentStep(last, [], Some(first.event.status), Some(first.event.status));
    assert [last] + [] == [last];
    ResentStep(first, [last], printer, decoder);
    assert [first] + [last] == Outro(trackIndex);
  }

  lemma {:induction false} BlocksResent(trackIndex: u16, first: nat, notes: u32, printer: Running, decoder: Running)
    requires first <= notes && BendBeforeMarker(trackIndex, printer, decoder)
    ensures StatusResent(Blocks(trackIndex, first, notes) + Outro(trackIndex), printer, decoder)
    decreases notes - first
  {
    hide StatusResent, Extras;
    if first == notes {
      OutroResent(trackIndex, printer, decoder);
      assert [] + Outro(trackIndex) == Outro(trackIndex);
    } else {
      var rest := Blocks(trackIndex, first + 1, notes) + Outro(trackIndex);
      var on, off := NoteOnAt(trackIndex, first), NoteOffAt(trackIndex, first);
      var status := Some(on.event.status);
      forall p, d | BendBeforeMarker(trackIndex, p, d) ensures StatusResent(rest, p, d) {
        BlocksResent(trackIndex, first + 1, notes, p, d);
      }
      ExtrasResent(trackIndex, first, rest, status);
      ResentStep(off, Extras(trackIndex, first) + rest, status, status);
      ResentStep(on, [off] + (Extras(trackIndex, first) + rest), printer, decoder);
      BlocksUnfold(trackIndex, first, notes, Outro(trackIndex));
    }
  }

  lemma Cadence(index: nat)
    ensures index % 512 == 0 ==> index % 256 == 0
    ensures index % 256 == 0 ==> index % 64 == 0
  {
    assert index % 512 == 0 ==> index == 256 * (2 * (index / 512));
    assert index % 256 == 0 ==> index == 64 * (4 * (index / 256));
  }

  /** The statuses of the messages after a note. */
  lemma ExtrasStatuses(trackIndex: u16, index: u32)
    ensures var c: int := ChannelOf(trackIndex);
            && ControlAt(trackIndex, index).event.Channel? && ControlAt(trackIndex, index).event.status == 0xB0 + c
            && BendAt(trackIndex, index).event.Channel? && BendAt(trackIndex, index).event.status == 0xE0 + c
            && MarkerAt(index).event.Meta?
  {}

  lemma ExtrasResent(trackIndex: u16, index: u32, rest: seq<PrintableMessage>, running: Running)
    requires forall p, d :: BendBeforeMarker(trackIndex, p, d) ==> StatusResent(rest, p, d)
    requires running == Some(0x90 + ChannelOf(trackIndex) as int)
    ensures StatusResent(Extras(trackIndex, index) + rest, running, running)
  {
    hide StatusResent, ControlAt, BendAt, MarkerAt;
    Cadence(index);
    ExtrasStatuses(trackIndex, index);
    var control, bend, marker := ControlAt(trackIndex, index), BendAt(trackIndex, index), MarkerAt(index);
    var controlled, bent := Some(control.event.status), Some(bend.event.status);
    if index % 64 != 0 {
      assert Extras(trackIndex, index) + rest == rest;
    } else if index % 256 != 0 {
      ResentStep(control, rest, running, running);
      assert Extras(trackIndex, index) + rest == [control] + rest;
    } else if index % 512 != 0 {
      ResentStep(bend, rest, controlled, controlled);
      ResentStep(control, [bend] + rest, running, running);
      assert Extras(trackIndex, index) + rest == [control] + ([bend] + rest);
    } else {
      ResentStep(marker, rest, bent, bent);
      ResentStep(bend, [marker] + rest, controlled, controlled);
      ResentStep(control, [bend] + ([marker] + rest), running, running);
      assert Extras(trackIndex, index) + rest == [control] + ([bend] + ([marker] + rest));
    }
  }

  // ----- One track

  /** Never clearing the printer's status is safe here: a pitch bend precedes every marker. */
  lemma ScriptResent(trackIndex: u16, notes: u32)
    ensures StatusResent(Script(trackIndex, notes), None, None)
  {
    hide StatusResent, Blocks, Outro, TrackName, Script;
    var name, program, pedal := Intro(trackIndex)[0], Intro(trackIndex)[1], Intro(trackIndex)[2];
    var rest := Blocks(trackIndex, 0, notes) + Outro(trackIndex);
    var patched, held := Some(program.event.status), Some(pedal.event.status);
    BlocksResent(trackIndex, 0, notes, held, held);
    ResentStep(pedal, rest, patched, patched);
    ResentStep(program, [pedal] + rest, None, None);
    ResentStep(name, [program] + ([pedal] + rest), None, None);
    ScriptUnfold(trackIndex, notes);
  }

  /** A generated track decodes to exactly the generated messages. */
  lemma TrackDecodes(trackIndex: u16, notes: u32, base: nat)
    ensures Decodes(TraceOf(GeneratedTrack(trackIndex, notes), base), Script(trackIndex, notes))
  {
    hide Decodes, Script, StatusResent, Print;
    ScriptResent(trackIndex, notes);
    CompressionPreservesMeaning(Script(trackIndex, notes), base);
  }

  lemma {:induction false} ScanDecoded(t: Trace, ms: seq<Message>, s: Summary)
    requires Decodes(t, ms)
    ensures ScanTrace(t, s).Ok? && ScanTrace(t, s).value.events == s.events + |ms|
    decreases t
  {
    if t.Step? {
      ScanDecoded(t.rest, ms[1..], Tallied(s, t.head.delta, t.head.event));
    }
  }

  // ----- Framing

  lemma FramePrinted(data: Bytes, p: nat, track: Bytes)
    requires |track| <= U32_MAX && StandsAt(data, p, ChunkBytes(track))
    ensures FrameAt(data, p) == Framed(track)
  {
    hide BigEndian32, Word32;
    StandsSplit(data, p, TRACK_CHUNK + BigEndian32(|track|), track);
    StandsSplit(data, p, TRACK_CHUNK, BigEndian32(|track|));
  }

  lemma HeaderPrinted(data: Bytes, trackCount: u16)
    requires StandsAt(data, 0, HeaderBytes(trackCount))
    ensures HeaderAt(data) == Ok(Read(Header(Parallel, trackCount, 480), 14))
  {
    var size, body := BigEndian32(6), BigEndian16(1) + BigEndian16(trackCount) + BigEndian16(480);
    StandsSplit(data, 0, HEADER_CHUNK + size, body);
    StandsSplit(data, 0, HEADER_CHUNK, size);
    assert body[..2] == BigEndian16(1) && body[2..4] == BigEndian16(trackCount) && body[4..6] == BigEndian16(480);
    hide BigEndian16, BigEndian32, Word16, Word32;
  }

  /** The chunks from track `index` on: the generated tracks in order, then nothing. */
  predicate HoldsTracks(c: Chunks, index: nat, count: nat, notes: u32)
    requires index <= count <= U16_MAX
    decreases c
  {
    match c
    case NoMore(_, trailing) => index == count && trailing == 0
    case BadChunk(_, _) => false
    case Chunk(_, body, _, rest) =>
      && index < count && body == GeneratedTrack(index, notes) && |body| <= U32_MAX
      && HoldsTracks(rest, index + 1, count, notes)
  }

  lemma {:induction false} ChunkListPrefix(index: nat, count: nat, notes: u32)
    requires index <= count <= U16_MAX && TracksFit(count, notes)
    ensures TracksFit(index, notes) && ChunkList(index, notes) <= ChunkList(count, notes)
    decreases count - index
  {
    hide GeneratedTrack, ChunkBytes;
    if index < count {
      ChunkListPrefix(index, count - 1, notes);
    }
  }

  lemma {:induction false} FileHoldsTracks(trackCount: u16, notes: u32, index: nat)
    requires TracksFit(trackCount, notes) && index <= trackCount && TracksFit(index, notes)
    ensures 14 + |ChunkList(index, notes)| <= |FileBytes(trackCount, notes)|
    ensures HoldsTracks(ChunksFrom(FileBytes(trackCount, notes), 14 + |ChunkList(index, notes)|, trackCount - index),
                        index, trackCount, notes)
    decreases trackCount - index
  {
    hide GeneratedTrack, ChunkBytes, FrameAt;
    var data, p := FileBytes(trackCount, notes), 14 + |ChunkList(index, notes)|;
    ChunkListPrefix(index, trackCount, notes);
    assert |HeaderBytes(trackCount)| == 14;
    if index < trackCount {
      var track := GeneratedTrack(index, notes);
      ChunkListPrefix(index + 1, trackCount, notes);
      ChunkLength(track);
      assert ChunkList(index + 1, notes) == ChunkList(index, notes) + ChunkBytes(track);
      assert StandsAt(data, p, ChunkBytes(track));
      FramePrinted(data, p, track);
      FileHoldsTracks(trackCount, notes, index + 1);
    }
  }

  lemma ChunkLength(track: Bytes)
    requires |track| <= U32_MAX
    ensures |ChunkBytes(track)| == 8 + |track|
  {}

  // ----- Scan and arena

  lemma {:induction false} ScanHeld(c: Chunks, index: nat, count: nat, notes: u32, s: Summary)
    requires index <= count <= U16_MAX && HoldsTracks(c, index, count, notes)
    ensures ScanChunks(c, s).Ok?
    ensures var r := ScanChunks(c, s).value;
            r.events == s.events + MessageTotal(count, notes) - MessageTotal(index, notes) && r.trailingBytes == 0
    decreases c
  {
    hide GeneratedTrack, Script, ScanTrace, TraceOf;
    if c.Chunk? {
      TrackDecodes(index, notes, c.base);
      var t := TraceOf(c.body, c.base);
      ScanDecoded(t, Script(index, notes), s);
      ScanHeld(c.rest, index + 1, count, notes, ScanTrace(t, s).value);
    }
  }

  /** Every generated file scans, with the generator's own event count and no byte left over. */
  lemma GeneratedFileScans(trackCount: u16, notes: u32)
    requires TracksFit(trackCount, notes)
    ensures var scan := ScanFile(FileBytes(trackCount, notes));
            && scan.Ok? && scan.value.events == MessageTotal(trackCount, notes)
            && scan.value.header == Header(Parallel, trackCount, 480) && scan.value.trailingBytes == 0
  {
    hide ScanChunks, ChunksFrom, HoldsTracks, HeaderBytes, ChunkList, TracksFit, MessageTotal;
    var data := FileBytes(trackCount, notes);
    NoTracks(notes);
    assert StandsAt(data, 0, HeaderBytes(trackCount));
    HeaderPrinted(data, trackCount);
    FileHoldsTracks(trackCount, notes, 0);
    ScanHeld(ChunksOf(data), 0, trackCount, notes, Started(Header(Parallel, trackCount, 480)));
    ScanKeepsHeader(data);
  }
}
