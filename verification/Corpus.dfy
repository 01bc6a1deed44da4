/** The corpus generator's `make_track` and `make_file`. */
module Corpus {
  import opened Base
  import opened Smf
  import opened Wire
  import opened VlqCodec
  import opened Printer

  // ----- Names

  /** Decimal digits in ASCII. */
  function Decimal(n: nat): Bytes {
    if n < 10 then [0x30 + n] else Decimal(n / 10) + [0x30 + n % 10]
  }

  /** At least two digits, as `:02d` pads. */
  function Decimal2(n: nat): Bytes {
    if n < 10 then [0x30] + Decimal(n) else Decimal(n)
  }

  predicate Ascii(s: Bytes) {
    forall i :: 0 <= i < |s| ==> s[i] < 0x80
  }

  function Pow10(n: nat): (r: nat)
    ensures r >= 1
  {
    if n == 0 then 1 else 10 * Pow10(n - 1)
  }

  lemma {:induction false} DecimalDigits(n: nat, digits: nat)
    requires n < Pow10(digits) && digits >= 1
    ensures 1 <= |Decimal(n)| <= digits && Ascii(Decimal(n))
  {
    if n >= 10 {
      DecimalDigits(n / 10, digits - 1);
    }
  }

  lemma DecimalShort(n: u32)
    ensures 1 <= |Decimal(n)| <= 10 && Ascii(Decimal(n))
  {
    assert Pow10(2) == 100 && Pow10(4) == 10_000 && Pow10(6) == 1_000_000 && Pow10(8) == 100_000_000 && Pow10(10) == 10_000_000_000;
    DecimalDigits(n, 10);
  }

  /** The ASCII bytes of `generated-`. */
  const GENERATED: Bytes := [0x67, 0x65, 0x6E, 0x65, 0x72, 0x61, 0x74, 0x65, 0x64, 0x2D]

  lemma {:induction false} DecimalAscii(n: nat)
    ensures Ascii(Decimal(n))
  {
    if n >= 10 {
      DecimalAscii(n / 10);
    }
  }

  function TrackName(trackIndex: nat): (s: Bytes)
    ensures s != [] && Ascii(s)
    ensures trackIndex <= U32_MAX ==> |s| <= 21
  {
    DecimalAscii(trackIndex);
    if trackIndex <= U32_MAX then DecimalShort(trackIndex); GENERATED + Decimal2(trackIndex) else GENERATED + Decimal2(trackIndex)
  }

  function MarkerName(index: nat): (s: Bytes)
    ensures s != [] && Ascii(s)
    ensures index <= U32_MAX ==> |s| <= 11
  {
    DecimalAscii(index);
    if index <= U32_MAX then DecimalShort(index); [0x6D] + Decimal(index) else [0x6D] + Decimal(index)
  }

  /** The generator can print the length of the track's name; for 32-bit numbers it always can. */
  predicate NameFits(trackIndex: nat) {
    trackIndex <= U32_MAX || |TrackName(trackIndex)| <= VLQ_MAX
  }

  /** Every marker up to a note count has a printable length; for 32-bit counts every one has. */
  predicate MarkersFit(notes: nat) {
    notes <= U32_MAX || forall index :: 0 <= index < notes ==> MarkerFits(index)
  }

  predicate MarkerFits(index: nat) {
    index <= U32_MAX || index % 512 != 0 || |MarkerName(index)| <= VLQ_MAX
  }

  lemma MarkerWithin(index: nat, notes: nat)
    requires MarkersFit(notes) && index < notes
    ensures MarkerFits(index)
  {
    hide MarkerFits;
    if notes <= U32_MAX {
      SmallMarkerFits(index);
    }
  }

  lemma SmallMarkerFits(index: nat)
    requires index <= U32_MAX
    ensures MarkerFits(index)
  {}

  lemma MarkersFitMore(notes: nat)
    requires MarkersFit(notes) && MarkerFits(notes)
    ensures MarkersFit(notes + 1)
  {
    hide MarkerFits;
    forall index | 0 <= index < notes + 1 ensures MarkerFits(index) {
      if index < notes {
        MarkerWithin(index, notes);
      }
    }
  }

  type TrackIndex = n: nat | NameFits(n)
  type NoteCount = n: nat | MarkersFit(n)

  // ----- The messages of a generated track

  function ChannelOf(trackIndex: nat): u4 {
    trackIndex % 16
  }

  function ProgramOf(trackIndex: nat): u7 {
    trackIndex * 7 % 128
  }

  function Say(delta: u28, kind: u4, channel: u4, first: u7, second: u7): (m: PrintableMessage)
    requires 0x8 <= kind <= 0xE && (kind == 0xC || kind == 0xD ==> second == 0)
  {
    var status: ChannelStatus := kind as int * 16 + channel;
    Message(delta, Event.Channel(status, first, second))
  }

  function DeltaOf(index: nat): u28 {
    [0, 1, 24, 127, 128, 240, 8_192][index % 7]
  }

  function PitchOf(trackIndex: nat, index: nat): (r: u7) {
    24 + (index * 17 + trackIndex * 5) % 84
  }

  function VelocityOf(trackIndex: nat, index: nat): (r: u7)
    ensures r > 0
  {
    1 + (index * 29 + trackIndex) % 127
  }

  /** Every controller number from 1 to 120 except the sustain pedal's. */
  function ControllerOf(index: nat): (r: u7)
    ensures r != 64
  {
    if 1 + index % 119 >= 64 then 2 + index % 119 else 1 + index % 119
  }

  function BendOf(index: nat): nat {
    index * 31 % 0x4000
  }

  function Intro(trackIndex: TrackIndex): seq<PrintableMessage> {
    var channel := ChannelOf(trackIndex);
    assert NameFits(trackIndex);
    [Message(0, Event.Meta(0x03, TrackName(trackIndex))),
     Say(0, 0xC, channel, ProgramOf(trackIndex), 0),
     Say(0, 0xB, channel, 64, 127)]
  }

  function NoteOnAt(trackIndex: nat, index: nat): PrintableMessage {
    Say(DeltaOf(index), 0x9, ChannelOf(trackIndex), PitchOf(trackIndex, index), VelocityOf(trackIndex, index))
  }

  function NoteOffAt(trackIndex: nat, index: nat): PrintableMessage {
    Say(24 + index % 97, 0x9, ChannelOf(trackIndex), PitchOf(trackIndex, index), 0)
  }

  function ControlAt(trackIndex: nat, index: nat): PrintableMessage {
    Say(0, 0xB, ChannelOf(trackIndex), ControllerOf(index), index % 128)
  }

  function BendAt(trackIndex: nat, index: nat): PrintableMessage {
    Say(0, 0xE, ChannelOf(trackIndex), BendOf(index) % 0x80, BendOf(index) / 0x80)
  }

  function MarkerAt(index: nat): PrintableMessage
    requires |MarkerName(index)| <= VLQ_MAX
  {
    Message(0, Event.Meta(0x06, MarkerName(index)))
  }

  /** What follows a note: a control, a bend and a marker, each at its own cadence. */
  function Extras(trackIndex: nat, index: nat): seq<PrintableMessage>
    requires MarkerFits(index)
  {
    (if index % 64 == 0 then [ControlAt(trackIndex, index)] else [])
    + (if index % 256 == 0 then [BendAt(trackIndex, index)] else [])
    + (if index % 512 == 0 then [MarkerAt(index)] else [])
  }

  function Block(trackIndex: nat, index: nat): seq<PrintableMessage>
    requires MarkerFits(index)
  {
    [NoteOnAt(trackIndex, index), NoteOffAt(trackIndex, index)] + Extras(trackIndex, index)
  }

  function Blocks(trackIndex: nat, first: nat, notes: NoteCount): seq<PrintableMessage>
    requires first <= notes
    decreases notes - first
  {
    if first == notes then []
    else
      MarkerWithin(first, notes);
      Block(trackIndex, first) + Blocks(trackIndex, first + 1, notes)
  }

  function Outro(trackIndex: nat): seq<PrintableMessage> {
    [Say(0, 0xB, ChannelOf(trackIndex), 64, 0), Message(0, Event.Meta(END_OF_TRACK, []))]
  }

  /** The messages of the first block, one by one, before whatever follows. */
  lemma BlocksUnfold(trackIndex: nat, first: nat, notes: NoteCount, tail: seq<PrintableMessage>)
    requires first < notes && MarkerFits(first)
    ensures Blocks(trackIndex, first, notes) + tail
         == [NoteOnAt(trackIndex, first)]
            + ([NoteOffAt(trackIndex, first)] + (Extras(trackIndex, first) + (Blocks(trackIndex, first + 1, notes) + tail)))
  {
    hide Extras, NoteOnAt, NoteOffAt, MarkerFits;
  }

  function Script(trackIndex: TrackIndex, notes: NoteCount): seq<PrintableMessage> {
    Intro(trackIndex) + (Blocks(trackIndex, 0, notes) + Outro(trackIndex))
  }

  /** The messages of the introduction, one by one, before the blocks. */
  lemma ScriptUnfold(trackIndex: TrackIndex, notes: NoteCount)
    ensures Script(trackIndex, notes)
         == [Intro(trackIndex)[0]]
            + ([Intro(trackIndex)[1]] + ([Intro(trackIndex)[2]] + (Blocks(trackIndex, 0, notes) + Outro(trackIndex))))
  {
    hide Blocks, Outro, TrackName;
  }

  lemma {:induction false} BlocksGrow(trackIndex: nat, first: nat, notes: NoteCount)
    requires first <= notes && MarkerFits(notes)
    ensures MarkersFit(notes + 1)
    ensures Blocks(trackIndex, first, notes + 1) == Blocks(trackIndex, first, notes) + Block(trackIndex, notes)
    decreases notes - first
  {
    hide Block, MarkersFit, MarkerFits;
    MarkersFitMore(notes);
    if first < notes {
      BlocksGrow(trackIndex, first + 1, notes);
    } else {
      assert Blocks(trackIndex, first, notes + 1) == Block(trackIndex, notes) + Blocks(trackIndex, notes + 1, notes + 1);
    }
  }

  // ----- What the formulas run through

  /** The controls of successive blocks run through every controller from 1 to 120 except the sustain pedal. */
  lemma ControllersCovered(number: u7) returns (k: nat)
    requires 1 <= number <= 120 && number != 64
    ensures k < 119 && ControllerOf(64 * k) == number
  {
    var m := if number < 64 then number - 1 else number - 2;
    k := 106 * m % 119;
    assert 64 * 106 == 119 * 57 + 1;
    var q := 106 * m / 119;
    assert 106 * m == 119 * q + k;
    assert 64 * k == 119 * (57 * m - 64 * q) + m;
    QuotientRemainder(64 * k, 57 * m - 64 * q, m);
  }

  lemma QuotientRemainder(n: nat, q: int, r: nat)
    requires n == 119 * q + r && r < 119
    ensures n % 119 == r
  {}

  /** Pitches climb by 17 within seven octaves from 24, velocities by 29 within 1 to 127, bends by 31 within 14 bits. */
  lemma FormulasStep(trackIndex: nat, index: nat)
    ensures PitchOf(trackIndex, 0) == 24 + trackIndex * 5 % 84 && VelocityOf(trackIndex, 0) == 1 + trackIndex % 127 && BendOf(0) == 0
    ensures var pitch: nat := PitchOf(trackIndex, index);
            24 <= pitch <= 107 && PitchOf(trackIndex, index + 1) == if pitch <= 90 then pitch + 17 else pitch - 67
    ensures var velocity: nat := VelocityOf(trackIndex, index);
            1 <= velocity <= 127 && VelocityOf(trackIndex, index + 1) == if velocity <= 98 then velocity + 29 else velocity - 98
    ensures BendOf(index + 1) == if BendOf(index) + 31 < 0x4000 then BendOf(index) + 31 else BendOf(index) + 31 - 0x4000
  {
    Step84(index * 17 + trackIndex * 5);
    Step127(index * 29 + trackIndex);
    Step16384(index * 31);
  }

  /**
    Deltas repeat every seven notes, four of one byte and three of two; notes last
    24 to 120 ticks, one more each time; programs advance by 7 with the track.
   */
  lemma DeltasStep(trackIndex: nat, index: nat)
    ensures [DeltaOf(0), DeltaOf(1), DeltaOf(2), DeltaOf(3), DeltaOf(4), DeltaOf(5), DeltaOf(6)]
         == [0, 1, 24, 127, 128, 240, 8192]
    ensures DeltaOf(index + 7) == DeltaOf(index)
    ensures NoteOffAt(trackIndex, 0).delta == 24 && NoteOffAt(trackIndex, index + 1).delta
         == if NoteOffAt(trackIndex, index).delta < 120 then NoteOffAt(trackIndex, index).delta + 1 else 24
    ensures ProgramOf(0) == 0 && ProgramOf(trackIndex + 1)
         == if ProgramOf(trackIndex) + 7 < 128 then ProgramOf(trackIndex) + 7 else ProgramOf(trackIndex) - 121
  {
    Step7(index);
    Step97(index);
    Step128(trackIndex * 7);
  }

  lemma Step7(n: nat)
    ensures (n + 7) % 7 == n % 7
  {}

  lemma Step97(n: nat)
    ensures (n + 1) % 97 == if n % 97 < 96 then n % 97 + 1 else 0
  {}

  lemma Step128(n: nat)
    ensures (n + 7) % 128 == if n % 128 + 7 < 128 then n % 128 + 7 else n % 128 - 121
  {}

  lemma Step84(n: nat)
    ensures (n + 17) % 84 == if n % 84 <= 66 then n % 84 + 17 else n % 84 - 67
  {}

  lemma Step127(n: nat)
    ensures (n + 29) % 127 == if n % 127 <= 97 then n % 127 + 29 else n % 127 - 98
  {}

  lemma Step16384(n: nat)
    ensures (n + 31) % 0x4000 == if n % 0x4000 + 31 < 0x4000 then n % 0x4000 + 31 else n % 0x4000 + 31 - 0x4000
  {}

  // ----- The generator

  function PrinterAt(ms: seq<PrintableMessage>, running: Running): Running {
    if ms == [] then running else PrinterAt(ms[1..], PrinterAfter(ms[0].event, running))
  }

  /** Printing one more message appends its bytes under the status last printed. */
  lemma {:induction false} PrintAppend(ms: seq<PrintableMessage>, m: PrintableMessage, running: Running)
    ensures Print(ms + [m], running, false) == Print(ms, running, false) + (Vlq(m.delta) + EventBytes(m.event, PrinterAt(ms, running)))
    ensures PrinterAt(ms + [m], running) == PrinterAfter(m.event, PrinterAt(ms, running))
  {
    hide Vlq, EventBytes;
    if ms == [] {
      assert [] + [m] == [m];
    } else {
      PrintAppend(ms[1..], m, PrinterAfter(ms[0].event, running));
      assert (ms + [m])[1..] == ms[1..] + [m];
    }
  }

  /** The locals that the generator's nested function updates. */
  class TrackWriter {
    var track: Bytes
    var eventCount: nat
    var runningStatus: Running
    ghost var messages: seq<PrintableMessage>

    ghost predicate Valid()
      reads this
    {
      && track == Print(messages, None, false)
      && eventCount == |messages|
      && runningStatus == PrinterAt(messages, None)
    }

    constructor ()
      ensures Valid() && messages == []
    {
      track, eventCount, runningStatus, messages := [], 0, None, [];
    }

    method ChannelEvent(delta: u28, status: ChannelStatus, data: Bytes)
      requires Valid() && |data| == (if OneDataByte(status) then 1 else 2) && Ascii(data)
      modifies this
      ensures Valid()
      ensures messages == old(messages) + [Message(delta, Event.Channel(status, data[0], if |data| == 2 then data[1] else 0))]
    {
      hide Vlq, Print, PrinterAt;
      ghost var m: PrintableMessage := Message(delta, Event.Channel(status, data[0], if |data| == 2 then data[1] else 0));
      PrintAppend(messages, m, None);
      var quantity := EncodeVlq(delta);
      track := track + quantity.value;
      if runningStatus != Some(status) {
        track := track + [status];
        runningStatus := Some(status);
      }
      track := track + data;
      eventCount := eventCount + 1;
      messages := messages + [m];
    }

    /** Fails if the payload's length has no variable-length form, as `encode_vlq` raises. */
    method MetaEvent(delta: u28, kind: u8, payload: Bytes) returns (ok: bool)
      requires Valid()
      modifies this
      ensures ok <==> |payload| <= VLQ_MAX
      ensures ok ==> Valid() && messages == old(messages) + [Message(delta, Event.Meta(kind, payload))]
    {
      hide Vlq, Print, PrinterAt;
      var quantity := EncodeVlq(delta);
      var length := EncodeVlq(|payload|);
      if length.None? {
        return false;
      }
      ok := true;
      ghost var m: PrintableMessage := Message(delta, Event.Meta(kind, payload));
      PrintAppend(messages, m, None);
      track := track + (quantity.value + ([0xFF, kind] + length.value + payload));
      eventCount := eventCount + 1;
      messages := messages + [m];
    }
  }

  method MakeExtras(writer: TrackWriter, trackIndex: nat, index: nat) returns (ok: bool)
    requires writer.Valid()
    modifies writer
    ensures ok <==> MarkerFits(index)
    ensures ok ==> writer.Valid() && writer.messages == old(writer.messages) + Extras(trackIndex, index)
  {
    hide Print, PrinterAt;
    ok := true;
    var channel: int := ChannelOf(trackIndex);
    if index % 64 == 0 {
      var controller := 1 + index % 119;
      if controller >= 64 {
        controller := controller + 1;
      }
      writer.ChannelEvent(0, 0xB0 + channel, [controller, index % 128]);
    }
    if index % 256 == 0 {
      var bend := index * 31 % 0x4000;
      writer.ChannelEvent(0, 0xE0 + channel, [bend % 0x80, bend / 0x80]);
    }
    if index % 512 == 0 {
      ok := writer.MetaEvent(0, 0x06, MarkerName(index));
    }
  }

  method MakeBlock(writer: TrackWriter, trackIndex: nat, index: nat) returns (ok: bool)
    requires writer.Valid()
    modifies writer
    ensures ok <==> MarkerFits(index)
    ensures ok ==> writer.Valid() && writer.messages == old(writer.messages) + Block(trackIndex, index)
  {
    hide Extras, MarkerFits;
    var channel: int := ChannelOf(trackIndex);
    writer.ChannelEvent(DeltaOf(index), 0x90 + channel, [PitchOf(trackIndex, index), VelocityOf(trackIndex, index)]);
    writer.ChannelEvent(24 + index % 97, 0x90 + channel, [PitchOf(trackIndex, index), 0]);
    ok := MakeExtras(writer, trackIndex, index);
  }

  /** `None` is the `ValueError` of a name too long for its length field. */
  method MakeTrack(trackIndex: nat, notes: nat) returns (r: Option<(Bytes, nat)>)
    ensures r.Some? <==> NameFits(trackIndex) && MarkersFit(notes)
    ensures r.Some? ==> r.value == (GeneratedTrack(trackIndex, notes), |Script(trackIndex, notes)|)
  {
    hide Block, Print, MarkerFits;
    var channel: int := ChannelOf(trackIndex);
    var writer := new TrackWriter();
    var ok := writer.MetaEvent(0, 0x03, TrackName(trackIndex));
    if !ok {
      return None;
    }
    writer.ChannelEvent(0, 0xC0 + channel, [ProgramOf(trackIndex)]);
    writer.ChannelEvent(0, 0xB0 + channel, [64, 127]);
    for index := 0 to notes
      invariant writer.Valid() && MarkersFit(index)
      invariant writer.messages == Intro(trackIndex) + Blocks(trackIndex, 0, index)
    {
      ok := MakeBlock(writer, trackIndex, index);
      if !ok {
        MarkersStop(index, notes);
        return None;
      }
      BlocksGrow(trackIndex, 0, index);
    }
    writer.ChannelEvent(0, 0xB0 + channel, [64, 0]);
    ok := writer.MetaEvent(0, END_OF_TRACK, []);
    assert writer.messages == Script(trackIndex, notes);
    r := Some((writer.track, writer.eventCount));
  }

  lemma MarkersStop(index: nat, notes: nat)
    requires index < notes && !MarkerFits(index)
    ensures !MarkersFit(notes)
  {}

  // ----- Files

  function BigEndian32(n: u32): (s: Bytes)
    ensures |s| == 4 && Word32(s) == n
  {
    var s: Bytes := [n / 0x100_0000, n / 0x1_0000 % 0x100, n / 0x100 % 0x100, n % 0x100];
    assert Word16(s[..2]) == n / 0x1_0000 && Word16(s[2..]) == n % 0x1_0000;
    s
  }

  function BigEndian16(n: u16): (s: Bytes)
    ensures |s| == 2 && Word16(s) == n
  {
    [n / 0x100, n % 0x100]
  }

  function GeneratedTrack(trackIndex: TrackIndex, notes: NoteCount): Bytes {
    Print(Script(trackIndex, notes), None, false)
  }

  function ChunkBytes(track: Bytes): Bytes
    requires |track| <= U32_MAX
  {
    TRACK_CHUNK + BigEndian32(|track|) + track
  }

  function HeaderBytes(trackCount: u16): Bytes {
    HEADER_CHUNK + BigEndian32(6) + (BigEndian16(1) + BigEndian16(trackCount) + BigEndian16(480))
  }

  /** Every track fits its chunk's size field. */
  predicate TracksFit(count: nat, notes: NoteCount) {
    forall t: u16 :: t < count ==> |GeneratedTrack(t, notes)| <= U32_MAX
  }

  function ChunkList(count: nat, notes: NoteCount): Bytes
    requires count <= U16_MAX && TracksFit(count, notes)
  {
    if count == 0 then [] else ChunkList(count - 1, notes) + ChunkBytes(GeneratedTrack(count - 1, notes))
  }

  function MessageTotal(count: nat, notes: NoteCount): nat
    requires count <= U16_MAX
  {
    if count == 0 then 0 else MessageTotal(count - 1, notes) + |Script(count - 1, notes)|
  }

  lemma FileGrows(count: u16, notes: NoteCount)
    requires count < U16_MAX && TracksFit(count, notes)
    ensures TracksFit(count + 1, notes) <==> |GeneratedTrack(count, notes)| <= U32_MAX
    ensures TracksFit(count + 1, notes) ==>
              ChunkList(count + 1, notes) == ChunkList(count, notes) + ChunkBytes(GeneratedTrack(count, notes))
    ensures MessageTotal(count + 1, notes) == MessageTotal(count, notes) + |Script(count, notes)|
  {
    hide GeneratedTrack, Script, ChunkBytes;
  }

  lemma FitsFewerNot(count: nat, more: nat, notes: NoteCount)
    requires count <= more && !TracksFit(count, notes)
    ensures !TracksFit(more, notes)
  {
    hide GeneratedTrack;
  }

  lemma NoTracks(notes: NoteCount)
    ensures TracksFit(0, notes) && ChunkList(0, notes) == [] && MessageTotal(0, notes) == 0
  {}

  function FileBytes(trackCount: u16, notes: NoteCount): Bytes
    requires TracksFit(trackCount, notes)
  {
    HeaderBytes(trackCount) + ChunkList(trackCount, notes)
  }

  /** `None` is the `struct.error` of a size that does not fit its field. */
  method MakeFile(trackCount: nat, notes: nat) returns (r: Option<(Bytes, nat)>)
    ensures r.Some? <==> trackCount <= U16_MAX && (trackCount > 0 ==> MarkersFit(notes) && TracksFit(trackCount, notes))
    ensures r.Some? ==> r.value == if trackCount == 0 then (HeaderBytes(0), 0)
                                   else (FileBytes(trackCount, notes), MessageTotal(trackCount, notes))
  {
    if trackCount > U16_MAX {
      return None;
    }
    hide GeneratedTrack, Script, ChunkBytes, HeaderBytes, TracksFit, ChunkList, MessageTotal, MarkersFit;
    var chunks: Bytes, eventCount := [], 0;
    for trackIndex := 0 to trackCount
      invariant trackIndex == 0 ==> chunks == [] && eventCount == 0
      invariant trackIndex > 0 ==>
                  && MarkersFit(notes) && TracksFit(trackIndex, notes)
                  && chunks == ChunkList(trackIndex, notes) && eventCount == MessageTotal(trackIndex, notes)
    {
      var made := MakeTrack(trackIndex, notes);
      if made.None? {
        return None;
      }
      NoTracks(notes);
      FileGrows(trackIndex, notes);
      var (track, trackEvents) := made.value;
      if |track| > U32_MAX {
        FitsFewerNot(trackIndex + 1, trackCount, notes);
        return None;
      }
      chunks, eventCount := chunks + ChunkBytes(track), eventCount + trackEvents;
    }
    assert trackCount == 0 ==> HeaderBytes(trackCount) + chunks == HeaderBytes(0);
    r := Some((HeaderBytes(trackCount) + chunks, eventCount));
  }
}
