/**
  The wire grammar as pure functions over a byte string: what every decoder of
  the crate must agree on. `d` is one chunk payload, `p` a position in it and
  `base` the absolute offset of the payload, used for error offsets only.
 */
module Wire {
  import opened Base
  import opened Smf

  /** A value and the position just after it. */
  datatype Read<+T> = Read(value: T, next: nat)

  type Reading<+T> = Result<Read<T>, ParseError>

  // ----- Fixed-size and variable-length quantities

  function ByteAt(d: Bytes, p: nat, base: nat): (r: Reading<u8>)
    requires p <= |d|
    ensures r.Err? ==> Structural(r.error.kind)
    ensures r.Ok? <==> p < |d|
    ensures r.Ok? ==> r.value.next == p + 1
  {
    if p < |d| then Ok(Read(d[p], p + 1)) else Err(At(base + p, UnexpectedEnd))
  }

  function Take(d: Bytes, p: nat, size: nat, base: nat): (r: Reading<Bytes>)
    requires p <= |d|
    ensures r.Err? ==> Structural(r.error.kind)
    ensures r.Ok? ==> r.value.next == p + size <= |d| && |r.value.value| == size
  {
    if p + size <= |d| then Ok(Read(d[p..p + size], p + size)) else Err(At(base + p, UnexpectedEnd))
  }

  function Word16(s: Bytes): u16
    requires |s| == 2
  {
    s[0] as int * 0x100 + s[1]
  }

  function Word32(s: Bytes): u32
    requires |s| == 4
  {
    Word16(s[..2]) as int * 0x1_0000 + Word16(s[2..])
  }

  /** The value of a variable-length quantity whose first bytes gave `value`, with `left` more allowed. */
  function VlqFrom(d: Bytes, p: nat, base: nat, start: nat, value: nat, left: nat): (r: Reading<nat>)
    requires p <= |d|
    ensures r.Err? ==> Structural(r.error.kind)
    ensures r.Ok? ==> p < r.value.next <= |d| && r.value.next <= p + left
    decreases left
  {
    if left == 0 then Err(At(start, VariableLengthQuantityTooLong))
    else if p == |d| then Err(At(base + p, UnexpectedEnd))
    else
      var next := value * 0x80 + d[p] % 0x80;
      if d[p] < 0x80 then Ok(Read(next, p + 1)) else VlqFrom(d, p + 1, base, start, next, left - 1)
  }

  function Pow128(n: nat): (r: nat)
    ensures r >= 1
  {
    if n == 0 then 1 else 0x80 * Pow128(n - 1)
  }

  /** A quantity of at most four 7-bit groups is below 2^28. */
  lemma {:induction false} VlqFromBounded(d: Bytes, p: nat, base: nat, start: nat, value: nat, left: nat)
    requires p <= |d| && left <= 4 && value < Pow128(4 - left)
    ensures var r := VlqFrom(d, p, base, start, value, left);
            r.Ok? ==> r.value.value < 0x1000_0000
    decreases left
  {
    assert Pow128(4) == 0x1000_0000 && Pow128(3) == 0x20_0000 && Pow128(2) == 0x4000 && Pow128(1) == 0x80;
    if left > 0 && p < |d| {
      if d[p] >= 0x80 {
        VlqFromBounded(d, p + 1, base, start, value * 0x80 + d[p] % 0x80, left - 1);
      }
    }
  }

  /** A whole variable-length quantity of one to four bytes. */
  function VlqAt(d: Bytes, p: nat, base: nat): (r: Reading<u28>)
    requires p <= |d|
    ensures r.Err? ==> Structural(r.error.kind)
    ensures r.Ok? ==> p < r.value.next <= |d| && r.value.next <= p + 4
  {
    VlqFromBounded(d, p, base, base + p, 0, 4);
    var r :- VlqFrom(d, p, base, base + p, 0, 4);
    Ok(Read(r.value, r.next))
  }

  // ----- One event

  function DataByteAt(d: Bytes, p: nat, base: nat): (r: Reading<u7>)
    requires p <= |d|
    ensures r.Err? ==> Structural(r.error.kind)
    ensures r.Ok? ==> r.value.next == p + 1 <= |d|
  {
    if p == |d| then Err(At(base + p, UnexpectedEnd))
    else if d[p] < 0x80 then Ok(Read(d[p], p + 1))
    else Err(At(base + p, InvalidDataByte(d[p])))
  }

  function ValidateDataByte(offset: nat, byte: u8): Result<u7, ParseError> {
    if byte < 0x80 then Ok(byte) else Err(At(offset, InvalidDataByte(byte)))
  }

  /** The data bytes of a channel message, whose first one may have been read in place of a status. */
  function ChannelAt(d: Bytes, p: nat, base: nat, status: ChannelStatus, firstData: Option<u8>): (r: Reading<Event>)
    requires p <= |d| && (firstData.Some? ==> p > 0)
    ensures r.Err? ==> Structural(r.error.kind)
    ensures r.Ok? ==> p <= r.value.next <= |d| && r.value.value.Channel? && r.value.value.status == status
    ensures r.Ok? && !OneDataByte(status) ==> r.value.next >= p + 1
    ensures r.Ok? && firstData.None? ==> r.value.next >= p + 1
  {
    var a :- FirstDataAt(d, p, base, firstData);
    if OneDataByte(status) then
      Ok(Read(Channel(status, a.value, 0), a.next))
    else
      var b :- DataByteAt(d, a.next, base);
      Ok(Read(Channel(status, a.value, b.value), b.next))
  }

  function FirstDataAt(d: Bytes, p: nat, base: nat, firstData: Option<u8>): (r: Reading<u7>)
    requires p <= |d| && (firstData.Some? ==> p > 0)
    ensures r.Err? ==> Structural(r.error.kind)
    ensures r.Ok? ==> r.value.next == (if firstData.Some? then p else p + 1) <= |d|
  {
    match firstData
    case Some(byte) =>
      var b :- ValidateDataByte(base + p - 1, byte);
      Ok(Read(b, p))
    case None => DataByteAt(d, p, base)
  }

  function PayloadAt(d: Bytes, p: nat, base: nat): (r: Reading<Bytes>)
    requires p <= |d|
    ensures r.Err? ==> Structural(r.error.kind)
    ensures r.Ok? ==> p + |r.value.value| < r.value.next <= |d| && |r.value.value| < 0x1000_0000
  {
    var length :- VlqAt(d, p, base);
    Take(d, length.next, length.value, base)
  }

  function MetaAt(d: Bytes, p: nat, base: nat): (r: Reading<Event>)
    requires p <= |d|
    ensures r.Err? ==> Structural(r.error.kind)
    ensures r.Ok? ==> p < r.value.next <= |d| && r.value.value.Meta?
  {
    var metaType :- ByteAt(d, p, base);
    var payload :- PayloadAt(d, metaType.next, base);
    Ok(Read(Meta(metaType.value, payload.value), payload.next))
  }

  function SysExAt(d: Bytes, p: nat, base: nat, status: SystemStatus): (r: Reading<Event>)
    requires p <= |d|
    ensures r.Err? ==> Structural(r.error.kind)
    ensures r.Ok? ==> p < r.value.next <= |d| && r.value.value.SysEx?
  {
    var payload :- PayloadAt(d, p, base);
    Ok(Read(SysEx(status, payload.value), payload.next))
  }

  /** The event body after its delta time. */
  function EventAt(d: Bytes, p: nat, base: nat, running: Running): (r: Reading<Event>)
    requires p <= |d|
    ensures r.Err? ==> Structural(r.error.kind)
    ensures r.Ok? ==> p < r.value.next <= |d|
    ensures r.Ok? ==> p + |PayloadOf(r.value.value)| < r.value.next && |PayloadOf(r.value.value)| < 0x1000_0000
    ensures r.Ok? && r.value.value.Channel? && !OneDataByte(r.value.value.status) ==> r.value.next >= p + 2
  {
    if p == |d| then Err(At(base + p, UnexpectedEnd))
    else if d[p] < 0x80 then
      match running
      case None => Err(At(base + p, RunningStatusMissing))
      case Some(status) => ChannelAt(d, p + 1, base, status, Some(d[p]))
    else if d[p] < 0xF0 then ChannelAt(d, p + 1, base, d[p], None)
    else if d[p] == 0xFF then MetaAt(d, p + 1, base)
    else if d[p] == 0xF0 || d[p] == 0xF7 then SysExAt(d, p + 1, base, d[p])
    else Err(At(base + p, InvalidStatus(d[p])))
  }

  function PayloadOf(event: Event): Bytes {
    if event.Channel? then [] else event.payload
  }

  /** Channel messages set the running status; meta and system events interrupt it. */
  function RunningAfter(event: Event): Running {
    if event.Channel? then Some(event.status) else None
  }

  // ----- One track

  /** An event with its delta time and the offsets the decoders report. */
  datatype TimedEvent = TimedEvent(
    deltaOffset: nat,
    delta: u28,
    offset: nat,
    event: Event,
    end: nat,        // absolute offset just after the event
    remaining: nat)  // payload bytes left after the event

  /**
    All that a decoder can observe of one track payload, in order: events, then
    the end of the payload or the first error. An error after a readable delta
    time keeps that delta, because the score decoder checks it first.
   */
  datatype Trace =
    | End
    | Bad(delta: Option<Read<u28>>, error: ParseError)
    | Step(head: TimedEvent, rest: Trace)

  function TraceFrom(d: Bytes, p: nat, base: nat, running: Running): (t: Trace)
    requires p <= |d|
    ensures t.End? <==> p == |d|
    decreases |d| - p
  {
    if p == |d| then End
    else
      match VlqAt(d, p, base)
      case Err(e) => Bad(None, e)
      case Ok(delta) =>
        match EventAt(d, delta.next, base, running)
        case Err(e) => Bad(Some(Read(delta.value, base + p)), e)
        case Ok(body) =>
          Step(TimedEvent(base + p, delta.value, base + delta.next, body.value, base + body.next, |d| - body.next),
               TraceFrom(d, body.next, base, RunningAfter(body.value)))
  }

  function TraceOf(d: Bytes, base: nat): Trace {
    TraceFrom(d, 0, base, None)
  }

  // ----- The file

  /** The chunks after the header, up to the declared count or the first framing error. */
  datatype Chunks =
    | NoMore(consumed: nat, trailing: nat)
    | BadChunk(size: Option<Read<u32>>, error: ParseError)
    | Chunk(sizeOffset: nat, body: Bytes, base: nat, rest: Chunks)

  /** One framed chunk; a failure keeps the declared size once that is known. */
  datatype Frame =
    | Framed(body: Bytes)
    | Unframed(size: Option<u32>, error: ParseError)

  function FrameAt(data: Bytes, p: nat): (f: Frame)
    requires p <= |data|
    ensures f.Unframed? ==> Structural(f.error.kind)
    ensures f.Framed? ==> p + 8 + |f.body| <= |data| && |f.body| <= U32_MAX
  {
    match Take(data, p, 4, 0)
    case Err(e) => Unframed(None, e)
    case Ok(tag) =>
      if tag.value != TRACK_CHUNK then Unframed(None, At(p, ExpectedChunk(TRACK_CHUNK, tag.value)))
      else
        match Take(data, p + 4, 4, 0)
        case Err(e) => Unframed(None, e)
        case Ok(size) =>
          match Take(data, p + 8, Word32(size.value), 0)
          case Err(e) => Unframed(Some(Word32(size.value)), e)
          case Ok(body) => Framed(body.value)
  }

  function ChunksFrom(data: Bytes, p: nat, count: nat): (c: Chunks)
    requires p <= |data|
    decreases count
  {
    if count == 0 then NoMore(p, |data| - p)
    else
      match FrameAt(data, p)
      case Unframed(None, e) => BadChunk(None, e)
      case Unframed(Some(size), e) => BadChunk(Some(Read(size, p + 4)), e)
      case Framed(body) => Chunk(p + 4, body, p + 8, ChunksFrom(data, p + 8 + |body|, count - 1))
  }

  /** The header chunk, with the raw format still to be judged. */
  datatype RawHeader = RawHeader(format: u16, trackCount: u16, division: u16)

  function RawHeaderAt(data: Bytes): (r: Reading<RawHeader>)
    ensures r.Err? ==> Structural(r.error.kind)
    ensures r.Ok? ==> 14 <= r.value.next <= |data|
  {
    var tag :- Take(data, 0, 4, 0);
    if tag.value != HEADER_CHUNK then Err(At(0, ExpectedChunk(HEADER_CHUNK, tag.value)))
    else
      var size :- Take(data, 4, 4, 0);
      if Word32(size.value) < 6 then Err(At(4, HeaderTooShort(Word32(size.value))))
      else
        var body :- Take(data, 8, Word32(size.value), 0);
        Ok(Read(RawHeader(Word16(body.value[..2]), Word16(body.value[2..4]), Word16(body.value[4..6])),
                body.next))
  }

  /** The header as scan and arena parsing accept it: any division, one of three formats. */
  function HeaderAt(data: Bytes): (r: Reading<Header>)
    ensures r.Err? ==> Structural(r.error.kind)
    ensures r.Ok? ==> 14 <= r.value.next <= |data|
  {
    var raw :- RawHeaderAt(data);
    match FormatOf(raw.value.format)
    case None => Err(At(8, InvalidFormat(raw.value.format)))
    case Some(format) => Ok(Read(Header(format, raw.value.trackCount, raw.value.division), raw.next))
  }

  /** The chunks of a file whose header is well formed. */
  function ChunksOf(data: Bytes): Chunks
    requires HeaderAt(data).Ok?
  {
    ChunksFrom(data, HeaderAt(data).value.next, HeaderAt(data).value.value.trackCount)
  }

  /** The events before the end of the payload or the first error. */
  function EventsOf(t: Trace): seq<TimedEvent> {
    if t.Step? then [t.head] + EventsOf(t.rest) else []
  }
}
