/** Generated files against the arena parser: exactly when its 32-bit offsets suffice. */
module CorpusArena {
  import opened Base
  import opened Smf
  import opened Wire
  import opened VlqCodec
  import opened Scan
  import opened EventArena
  import opened Printer
  import opened Corpus
  import opened CorpusDecoding
  import opened CorpusScores
  import opened CorpusTheorems

  /** The arena's payloads have room for these messages. */
  predicate PayloadsFit(a: Arena, ms: seq<Message>) {
    |a.payloads| + TextLength(ms) <= U32_MAX
  }

  predicate EndsEmpty(ms: seq<Message>) {
    ms != [] && ms[|ms| - 1].event.Meta? && ms[|ms| - 1].event.payload == []
  }

  lemma BuildMessage(a: Arena, head: TimedEvent, m: Message, rest: seq<Message>)
    requires Printable(m) && m == Message(head.delta, head.event)
    ensures var r := BuildEvent(a, head.delta, head.event, head.end);
            && TextLength([m] + rest) == TextLength(rest) + |PayloadOf(m.event)|
            && (r.Ok? <==> m.event.Channel? || |a.payloads| <= U32_MAX)
            && (r.Ok? ==> |r.value.events| == |a.events| + 1 && |r.value.payloads| == |a.payloads| + |PayloadOf(m.event)|)
  {
    assert ([m] + rest)[1..] == rest;
  }

  /** A decoded list that ends in an empty meta event builds exactly if all its payloads fit. */
  lemma {:induction false} BuildDecoded(t: Trace, ms: seq<PrintableMessage>, a: Arena)
    requires Decodes(t, ms) && EndsEmpty(ms)
    ensures BuildTrace(t, a).Ok? <==> PayloadsFit(a, ms)
    ensures var r := BuildTrace(t, a);
            r.Ok? ==> |r.value.events| == |a.events| + |ms| && |r.value.payloads| == |a.payloads| + TextLength(ms)
    decreases t
  {
    hide BuildEvent, TextLength;
    var built := BuildEvent(a, t.head.delta, t.head.event, t.head.end);
    BuildMessage(a, t.head, ms[0], ms[1..]);
    assert [ms[0]] + ms[1..] == ms;
    if |ms| == 1 {
      assert ms[1..] == [];
      NoText();
    } else if built.Ok? {
      assert EndsEmpty(ms[1..]);
      BuildDecoded(t.rest, ms[1..], built.value);
    }
  }

  lemma NoText()
    ensures TextLength([]) == 0
  {}

  lemma ScriptEndsEmpty(trackIndex: u16, notes: u32)
    ensures EndsEmpty(Script(trackIndex, notes))
  {
    hide Blocks, Intro;
    var outro := Outro(trackIndex);
    assert Script(trackIndex, notes)[|Script(trackIndex, notes)| - 1] == outro[1];
  }

  lemma {:induction false} BuildHeld(c: Chunks, index: nat, count: nat, notes: u32, a: Arena)
    requires index <= count <= U16_MAX && HoldsTracks(c, index, count, notes)
    requires |a.events| == MessageTotal(index, notes) <= U32_MAX && |a.payloads| == TextTotal(index, notes) <= U32_MAX
    ensures BuildChunks(c, a).Ok? <==> MessageTotal(count, notes) <= U32_MAX && TextTotal(count, notes) <= U32_MAX
    ensures BuildChunks(c, a).Ok? ==> |BuildChunks(c, a).value.events| == MessageTotal(count, notes)
    ensures BuildChunks(c, a).Ok? ==> |BuildChunks(c, a).value.payloads| == TextTotal(count, notes)
    decreases c
  {
    hide GeneratedTrack, Script, BuildTrace, TraceOf, TextLength;
    if c.Chunk? {
      TrackDecodes(index, notes, c.base);
      ScriptEndsEmpty(index, notes);
      BuildDecoded(TraceOf(c.body, c.base), Script(index, notes), a);
      TotalsGrow(index + 1, count, notes);
      var built := BuildTrack(c.body, c.base, a);
      if built.Ok? {
        BuildHeld(c.rest, index + 1, count, notes, built.value);
      }
    }
  }

  /**
    The arena parser accepts a generated file exactly when its event and payload
    offsets fit 32 bits, and then holds one record per event.
   */
  lemma GeneratedFileBuildsIff(trackCount: u16, notes: u32)
    requires TracksFit(trackCount, notes)
    ensures var arena := ParseFile(FileBytes(trackCount, notes));
            && (arena.Ok? <==> MessageTotal(trackCount, notes) <= U32_MAX && TextTotal(trackCount, notes) <= U32_MAX)
            && (arena.Ok? ==> |arena.value.events| == MessageTotal(trackCount, notes)
                              && |arena.value.payloads| == TextTotal(trackCount, notes))
  {
    hide ScanFile, BuildChunks, ChunksFrom, HoldsTracks, HeaderBytes, ChunkList, TracksFit, MessageTotal, TextTotal;
    var data := FileBytes(trackCount, notes);
    GeneratedFileScans(trackCount, notes);
    NoTracks(notes);
    NoTextTotal(notes);
    assert StandsAt(data, 0, HeaderBytes(trackCount));
    HeaderPrinted(data, trackCount);
    FileHoldsTracks(trackCount, notes, 0);
    BuildHeld(ChunksOf(data), 0, trackCount, notes, EmptyArena(ScanFile(data).value));
  }

  lemma NoTextTotal(notes: u32)
    ensures TextTotal(0, notes) == 0
  {}
}
