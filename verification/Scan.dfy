/** `scan_smf`: the allocation-free structural scan, proved against the wire grammar. */
module Scan {
  import opened Base
  import opened Smf
  import opened Wire
  import opened Cursors

  datatype Summary = Summary(
    header: Header,
    events: nat,
    channelEvents: nat,
    metaEvents: nat,
    sysexEvents: nat,
    payloadBytes: nat,
    maxDeltaTicks: nat,
    bytesConsumed: nat,
    trailingBytes: nat)
  {
    /** Every counter fits its `u64` field because none exceeds the bytes read so far. */
    predicate Within(bytes: nat) {
      events <= bytes && payloadBytes <= bytes && channelEvents + metaEvents + sysexEvents == events
    }
  }

  function Started(header: Header): Summary {
    Summary(header, 0, 0, 0, 0, 0, 0, 0, 0)
  }

  function CountedEvent(s: Summary, event: Event): Summary {
    var s := s.(events := s.events + 1);
    match event
    case Channel(_, _, _) => s.(channelEvents := s.channelEvents + 1)
    case Meta(_, payload) => s.(metaEvents := s.metaEvents + 1, payloadBytes := s.payloadBytes + |payload|)
    case SysEx(_, payload) => s.(sysexEvents := s.sysexEvents + 1, payloadBytes := s.payloadBytes + |payload|)
  }

  function Tallied(s: Summary, delta: nat, event: Event): Summary {
    CountedEvent(s.(maxDeltaTicks := Max(s.maxDeltaTicks, delta)), event)
  }

  function ScanTrace(t: Trace, s: Summary): Result<Summary, ParseError> {
    match t
    case End => Ok(s)
    case Bad(_, e) => Err(e)
    case Step(head, rest) => ScanTrace(rest, Tallied(s, head.delta, head.event))
  }

  function ScanChunks(c: Chunks, s: Summary): Result<Summary, ParseError> {
    match c
    case NoMore(consumed, trailing) => Ok(s.(bytesConsumed := consumed, trailingBytes := trailing))
    case BadChunk(_, e) => Err(e)
    case Chunk(_, body, base, rest) =>
      var s' :- ScanTrace(TraceOf(body, base), s);
      ScanChunks(rest, s')
  }

  /** What `scan_smf` returns on every input. */
  function ScanFile(data: Bytes): Result<Summary, ParseError> {
    var header :- HeaderAt(data);
    ScanChunks(ChunksOf(data), Started(header.value))
  }

  lemma {:induction false} ScanTraceKeepsHeader(t: Trace, s: Summary)
    ensures ScanTrace(t, s).Ok? ==> ScanTrace(t, s).value.header == s.header
  {
    if t.Step? {
      ScanTraceKeepsHeader(t.rest, Tallied(s, t.head.delta, t.head.event));
    }
  }

  lemma {:induction false} ScanChunksKeepsHeader(c: Chunks, s: Summary)
    ensures ScanChunks(c, s).Ok? ==> ScanChunks(c, s).value.header == s.header
  {
    if c.Chunk? {
      var t := TraceOf(c.body, c.base);
      ScanTraceKeepsHeader(t, s);
      if ScanTrace(t, s).Ok? {
        ScanChunksKeepsHeader(c.rest, ScanTrace(t, s).value);
      }
    }
  }

  lemma ScanKeepsHeader(data: Bytes)
    ensures ScanFile(data).Ok? ==> HeaderAt(data).Ok? && ScanFile(data).value.header == HeaderAt(data).value.value
  {
    if HeaderAt(data).Ok? {
      ScanChunksKeepsHeader(ChunksOf(data), Started(HeaderAt(data).value.value));
    }
  }

  // ----- The decoder

  /** Reads a channel message's data bytes without keeping them. */
  method ScanChannelData(cursor: Cursor, firstData: Option<u8>, dataLen: nat, ghost status: ChannelStatus)
    returns (r: Result<(), ParseError>)
    requires cursor.Valid() && dataLen == if OneDataByte(status) then 1 else 2
    requires firstData.Some? ==> cursor.position > 0
    modifies cursor`position
    ensures cursor.Valid()
    ensures match ChannelAt(cursor.data, old(cursor.position), cursor.base, status, firstData)
            case Ok(read) => r == Ok(()) && cursor.position == read.next
            case Err(e) => r == Err(e)
  {
    var alreadyRead := if firstData.Some? then 1 else 0;
    if firstData.Some? {
      var _ :- ValidateDataByte(cursor.AbsoluteOffset() - 1, firstData.value);
    }
    ghost var start := cursor.position;
    for index := alreadyRead to dataLen
      invariant cursor.Valid() && cursor.position == start + index - alreadyRead
      invariant forall k :: start <= k < cursor.position ==> cursor.data[k] < 0x80
    {
      var offset := cursor.AbsoluteOffset();
      var byte :- cursor.ReadU8();
      var _ :- ValidateDataByte(offset, byte);
    }
    r := Ok(());
  }

  /** A length-prefixed payload, skipped. */
  method SkipPayload(cursor: Cursor) returns (r: Result<u32, ParseError>)
    requires cursor.Valid()
    modifies cursor`position
    ensures cursor.Valid()
    ensures match PayloadAt(cursor.data, old(cursor.position), cursor.base)
            case Ok(read) => r == Ok(|read.value|) && cursor.position == read.next && old(cursor.position) + |read.value| < read.next
            case Err(e) => r == Err(e)
  {
    var length :- cursor.ReadVlq();
    var _ :- cursor.ReadSlice(length);
    r := Ok(length);
  }

  /** One event after its delta time: the counters and the running status it leaves. */
  method ScanEvent(cursor: Cursor, running: Running, before: Summary)
    returns (r: Result<(Summary, Running), ParseError>)
    requires cursor.Valid() && cursor.base + |cursor.data| <= ISIZE_MAX
    requires before.Within(cursor.base + cursor.position)
    modifies cursor`position
    ensures cursor.Valid()
    ensures match EventAt(cursor.data, old(cursor.position), cursor.base, running)
            case Ok(read) =>
              && r == Ok((CountedEvent(before, read.value), RunningAfter(read.value)))
              && cursor.position == read.next
              && r.value.0.Within(cursor.base + cursor.position)
            case Err(e) => r == Err(e)
  {
    hide VlqAt, Take, ChannelAt, PayloadAt;
    var summary, runningStatus := before, running;
    var eventOffset := cursor.AbsoluteOffset();
    var first :- cursor.ReadU8();
    var status: u8, firstData: Option<u8> := first, None;
    if first < 0x80 {
      if runningStatus.None? {
        return Err(At(eventOffset, RunningStatusMissing));
      }
      status, firstData := runningStatus.value, Some(first);
    } else if first < 0xF0 {
      runningStatus := Some(first);
    }
    if 0x80 <= status <= 0xEF {
      var dataLen := if status / 16 == 0x0C || status / 16 == 0x0D then 1 else 2;
      var _ :- ScanChannelData(cursor, firstData, dataLen, status);
      summary := summary.(channelEvents := summary.channelEvents + 1);
    } else if status == 0xFF && firstData.None? {
      var _ :- cursor.ReadU8();
      var length :- SkipPayload(cursor);
      var payloadBytes: u64 := summary.payloadBytes + length;
      summary := summary.(payloadBytes := payloadBytes, metaEvents := summary.metaEvents + 1);
      runningStatus := None;
    } else if (status == 0xF0 || status == 0xF7) && firstData.None? {
      var length :- SkipPayload(cursor);
      var payloadBytes: u64 := summary.payloadBytes + length;
      summary := summary.(payloadBytes := payloadBytes, sysexEvents := summary.sysexEvents + 1);
      runningStatus := None;
    } else {
      return Err(At(eventOffset, InvalidStatus(status)));
    }
    r := Ok((summary.(events := summary.events + 1), runningStatus));
  }

  method ScanTrack(cursor: Cursor, before: Summary) returns (r: Result<Summary, ParseError>)
    requires cursor.Valid() && cursor.position == 0 && cursor.base + |cursor.data| <= ISIZE_MAX
    requires before.Within(cursor.base)
    modifies cursor`position
    ensures r == ScanTrace(TraceOf(cursor.data, cursor.base), before)
    ensures r.Ok? ==> r.value.Within(cursor.base + |cursor.data|)
  {
    var summary := before;
    hide EventAt, VlqAt;
    var runningStatus: Running := None;
    while cursor.Remaining() != 0
      invariant cursor.Valid() && summary.Within(cursor.base + cursor.position)
      invariant ScanTrace(TraceFrom(cursor.data, cursor.position, cursor.base, runningStatus), summary)
             == ScanTrace(TraceOf(cursor.data, cursor.base), before)
      decreases cursor.Remaining()
    {
      var delta :- cursor.ReadVlq();
      summary := summary.(maxDeltaTicks := Max(summary.maxDeltaTicks, delta));
      var scanned :- ScanEvent(cursor, runningStatus, summary);
      summary, runningStatus := scanned.0, scanned.1;
    }
    r := Ok(summary);
  }

  /**
    Frames and validates the header chunk at the start of the file. At least six bytes are declared and
    framed first, so the three fields can be read.
   */
  method ReadHeader(cursor: Cursor) returns (r: Result<Header, ParseError>)
    requires cursor.Valid() && cursor.position == 0 && cursor.base == 0
    modifies cursor`position
    ensures cursor.Valid()
    ensures match HeaderAt(cursor.data)
            case Ok(read) => r == Ok(read.value) && cursor.position == read.next
            case Err(e) => r == Err(e)
  {
    var tag :- cursor.ReadSlice(4);
    if tag != HEADER_CHUNK {
      return Err(At(0, ExpectedChunk(HEADER_CHUNK, tag)));
    }
    var headerSizeOffset := cursor.AbsoluteOffset();
    var headerSize :- cursor.ReadU32();
    if headerSize < 6 {
      return Err(At(headerSizeOffset, HeaderTooShort(headerSize)));
    }
    var headerCursor :- cursor.TakeCursor(headerSize);
    var rawFormat := headerCursor.ReadU16();
    var format := FormatOf(rawFormat.value);
    if format.None? {
      return Err(At(headerCursor.base, InvalidFormat(rawFormat.value)));
    }
    var trackCount := headerCursor.ReadU16();
    var division := headerCursor.ReadU16();
    r := Ok(Header(format.value, trackCount.value, division.value));
  }

  /** Frames the next track chunk. */
  method OpenTrack(cursor: Cursor) returns (r: Result<Cursor, ParseError>)
    requires cursor.Valid() && cursor.base == 0
    modifies cursor`position
    ensures cursor.Valid()
    ensures match FrameAt(cursor.data, old(cursor.position))
            case Framed(body) =>
              && r.Ok? && fresh(r.value) && r.value.Valid() && r.value.position == 0
              && r.value.data == body && r.value.base == old(cursor.position) + 8
              && cursor.position == r.value.base + |body|
            case Unframed(_, e) => r == Err(e)
  {
    var tagOffset := cursor.AbsoluteOffset();
    var tag :- cursor.ReadSlice(4);
    if tag != TRACK_CHUNK {
      return Err(At(tagOffset, ExpectedChunk(TRACK_CHUNK, tag)));
    }
    var trackSize :- cursor.ReadU32();
    r := cursor.TakeCursor(trackSize);
  }

  method ScanTracks(cursor: Cursor, trackCount: u16, before: Summary) returns (r: Result<Summary, ParseError>)
    requires cursor.Valid() && cursor.base == 0
    requires before.Within(cursor.position)
    modifies cursor`position
    ensures r == ScanChunks(ChunksFrom(cursor.data, old(cursor.position), trackCount), before)
    ensures r.Ok? ==> r.value.Within(|cursor.data|) && r.value.bytesConsumed + r.value.trailingBytes == |cursor.data|
  {
    hide FrameAt, TraceFrom, TraceOf, HeaderAt, ScanTrace;

    var summary := before;
    for track := 0 to trackCount
      invariant cursor.Valid()
      invariant summary.Within(cursor.position)
      invariant ScanChunks(ChunksFrom(cursor.data, cursor.position, trackCount - track), summary)
             == ScanChunks(ChunksFrom(cursor.data, old(cursor.position), trackCount), before)
    {
      var trackCursor :- OpenTrack(cursor);
      summary :- ScanTrack(trackCursor, summary);
    }
    r := Ok(summary.(bytesConsumed := cursor.AbsoluteOffset(), trailingBytes := cursor.Remaining()));
  }

  method ScanSmf(data: Bytes) returns (r: Result<Summary, ParseError>)
    requires |data| <= ISIZE_MAX
    ensures r == ScanFile(data)
    ensures r.Ok? ==> r.value.Within(|data|) && r.value.bytesConsumed + r.value.trailingBytes == |data|
  {
    var cursor := new Cursor(data, 0);
    var header :- ReadHeader(cursor);
    r := ScanTracks(cursor, header.trackCount, Started(header));
  }
}
