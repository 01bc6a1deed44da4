/** `parse_smf` as the crate runs it: a scan, then a second pass that fills the arena in place. */
module ArenaParser {
  import opened Base
  import opened Smf
  import opened Wire
  import opened Cursors
  import opened Scan
  import opened EventArena

  class OwnedSmf {
    const header: Header
    var tracks: seq<TrackRange>
    var events: seq<EventRecord>
    var payloads: Bytes
    const bytesConsumed: nat
    const trailingBytes: nat

    constructor (summary: Summary)
      ensures View() == EmptyArena(summary)
    {
      header, bytesConsumed, trailingBytes := summary.header, summary.bytesConsumed, summary.trailingBytes;
      tracks, events, payloads := [], [], [];
    }

    function View(): Arena
      reads this
    {
      Arena(header, tracks, events, payloads, bytesConsumed, trailingBytes)
    }

    method PushVariableEvent(deltaTicks: u32, status: u8, auxiliary: u8, payload: Bytes, cursor: Cursor)
      returns (r: Result<(), ParseError>)
      modifies this
      ensures match PushVariable(old(View()), deltaTicks, status, auxiliary, payload, cursor.AbsoluteOffset())
              case Ok(a) => r == Ok(()) && View() == a
              case Err(e) => r == Err(e)
    {
      if |payloads| > U32_MAX || |payload| > U32_MAX {
        return Err(At(cursor.AbsoluteOffset(), SizeOverflow));
      }
      var record := EventRecord(deltaTicks, |payloads|, |payload|, (0, 0), status, auxiliary);
      payloads := payloads + payload;
      events := events + [record];
      r := Ok(());
    }
  }

  method ReadChannelData(cursor: Cursor, firstData: Option<u8>, dataLen: nat, ghost status: ChannelStatus)
    returns (r: Result<(u8, u8), ParseError>)
    requires cursor.Valid() && dataLen == DataLength(status)
    requires firstData.Some? ==> cursor.position > 0
    modifies cursor`position
    ensures cursor.Valid()
    ensures match ChannelAt(cursor.data, old(cursor.position), cursor.base, status, firstData)
            case Ok(read) => r == Ok((read.value.first, read.value.second)) && cursor.position == read.next
            case Err(e) => r == Err(e)
  {
    var data: Bytes := [0, 0];
    var index := 0;
    if firstData.Some? {
      var byte :- ValidateDataByte(cursor.AbsoluteOffset() - 1, firstData.value);
      data := data[0 := byte];
      index := 1;
    }
    ghost var start, done := cursor.position, index;
    while index < dataLen
      invariant cursor.Valid() && done <= index <= dataLen && |data| == 2
      invariant cursor.position == start + index - done
      invariant index > done ==> cursor.data[start] < 0x80
      invariant done == 1 ==> data[0] == firstData.value < 0x80
      invariant forall k :: done <= k < index ==> data[k] == cursor.data[start + k - done] < 0x80
      invariant forall k :: index <= k < 2 ==> data[k] == 0
    {
      var offset := cursor.AbsoluteOffset();
      var byte :- cursor.ReadU8();
      var _ :- ValidateDataByte(offset, byte);
      data := data[index := byte];
      index := index + 1;
    }
    r := Ok((data[0], data[1]));
  }

  /** A length-prefixed payload, kept. */
  method ReadPayload(cursor: Cursor) returns (r: Result<Bytes, ParseError>)
    requires cursor.Valid()
    modifies cursor`position
    ensures cursor.Valid() && cursor.Moved(r, PayloadAt(cursor.data, old(cursor.position), cursor.base), old(cursor.position))
  {
    var length :- cursor.ReadVlq();
    r := cursor.ReadSlice(length);
  }

  /** One event after its delta time: decoded, recorded, and the running status it leaves. */
  method ParseEvent(cursor: Cursor, running: Running, deltaTicks: u28, owned: OwnedSmf)
    returns (r: Result<Running, ParseError>)
    requires cursor.Valid()
    modifies cursor`position, owned
    ensures cursor.Valid()
    ensures match EventAt(cursor.data, old(cursor.position), cursor.base, running)
            case Err(e) => r == Err(e)
            case Ok(read) =>
              match BuildEvent(old(owned.View()), deltaTicks, read.value, cursor.base + read.next)
              case Err(e) => r == Err(e)
              case Ok(a) => r == Ok(RunningAfter(read.value)) && cursor.position == read.next && owned.View() == a
  {
    hide VlqAt, Take, ChannelAt, PayloadAt, PushVariable;
    var runningStatus := running;
    var eventOffset := cursor.AbsoluteOffset();
    var first :- cursor.ReadU8();
    var status: u8, firstData: Option<u8> := first, None;
    if first < 0x80 {
      if runningStatus.None? {
        return Err(At(eventOffset, RunningStatusMissing));
      }
      status, firstData := runningStatus.value, Some(first);
    } else if first < 0xF0 {
      runningStatus := Some(first);
    }
    if 0x80 <= status <= 0xEF {
      var dataLen := if status / 16 == 0x0C || status / 16 == 0x0D then 1 else 2;
      var data :- ReadChannelData(cursor, firstData, dataLen, status);
      owned.events := owned.events + [EventRecord(deltaTicks, 0, dataLen, data, status, 0)];
    } else if status == 0xFF && firstData.None? {
      var metaType :- cursor.ReadU8();
      var payload :- ReadPayload(cursor);
      var _ :- owned.PushVariableEvent(deltaTicks, status, metaType, payload, cursor);
      runningStatus := None;
    } else if (status == 0xF0 || status == 0xF7) && firstData.None? {
      var payload :- ReadPayload(cursor);
      var _ :- owned.PushVariableEvent(deltaTicks, status, 0, payload, cursor);
      runningStatus := None;
    } else {
      return Err(At(eventOffset, InvalidStatus(status)));
    }
    r := Ok(runningStatus);
  }

  method ParseTrack(cursor: Cursor, owned: OwnedSmf) returns (r: Result<(), ParseError>)
    requires cursor.Valid() && cursor.position == 0
    modifies cursor`position, owned
    ensures match BuildTrack(cursor.data, cursor.base, old(owned.View()))
            case Ok(a) => r == Ok(()) && owned.View() == a
            case Err(e) => r == Err(e)
  {
    hide EventAt, VlqAt, BuildEvent;
    if |owned.events| > U32_MAX {
      return Err(At(cursor.AbsoluteOffset(), SizeOverflow));
    }
    var start: u32 := |owned.events|;
    var runningStatus: Running := None;
    while cursor.Remaining() != 0
      invariant cursor.Valid()
      invariant BuildTrace(TraceFrom(cursor.data, cursor.position, cursor.base, runningStatus), owned.View())
             == BuildTrace(TraceOf(cursor.data, cursor.base), old(owned.View()))
      decreases cursor.Remaining()
    {
      var deltaTicks :- cursor.ReadVlq();
      runningStatus :- ParseEvent(cursor, runningStatus, deltaTicks, owned);
    }
    if |owned.events| > U32_MAX || |owned.events| < start {
      return Err(At(cursor.AbsoluteOffset(), SizeOverflow));
    }
    owned.tracks := owned.tracks + [TrackRange(start, |owned.events| - start)];
    r := Ok(());
  }

  /** The second pass re-frames the header and the chunks; after a successful scan none of its reads fails. */
  method SkipHeader(cursor: Cursor)
    requires cursor.Valid() && cursor.position == 0 && cursor.base == 0 && HeaderAt(cursor.data).Ok?
    modifies cursor`position
    ensures cursor.Valid() && cursor.position == HeaderAt(cursor.data).value.next
  {
    var _ := cursor.ReadSlice(4);
    var headerSize := cursor.ReadU32();
    var _ := cursor.ReadSlice(headerSize.value);
  }

  method ReopenTrack(cursor: Cursor) returns (track: Cursor)
    requires cursor.Valid() && cursor.base == 0
    requires FrameAt(cursor.data, cursor.position).Framed?
    modifies cursor`position
    ensures cursor.Valid() && fresh(track) && track.Valid() && track.position == 0
    ensures var body := FrameAt(cursor.data, old(cursor.position)).body;
            && track.data == body && track.base == old(cursor.position) + 8
            && cursor.position == track.base + |body|
  {
    var _ := cursor.ReadSlice(4);
    var trackSize := cursor.ReadU32();
    var taken := cursor.TakeCursor(trackSize.value);
    track := taken.value;
  }

  method ParseTracks(cursor: Cursor, trackCount: u16, owned: OwnedSmf, ghost summary: Summary)
    returns (r: Result<(), ParseError>)
    requires cursor.Valid() && cursor.base == 0
    requires ScanChunks(ChunksFrom(cursor.data, cursor.position, trackCount), summary).Ok?
    modifies cursor`position, owned
    ensures match BuildChunks(ChunksFrom(cursor.data, old(cursor.position), trackCount), old(owned.View()))
            case Ok(a) => r == Ok(()) && owned.View() == a
            case Err(e) => r == Err(e)
  {
    hide FrameAt, TraceOf, ScanTrace, BuildTrack;
    ghost var s := summary;
    for track := 0 to trackCount
      invariant cursor.Valid()
      invariant ScanChunks(ChunksFrom(cursor.data, cursor.position, trackCount - track), s).Ok?
      invariant BuildChunks(ChunksFrom(cursor.data, cursor.position, trackCount - track), owned.View())
             == BuildChunks(ChunksFrom(cursor.data, old(cursor.position), trackCount), old(owned.View()))
    {
      var trackCursor := ReopenTrack(cursor);
      s := ScanTrace(TraceOf(trackCursor.data, trackCursor.base), s).value;
      var _ :- ParseTrack(trackCursor, owned);
    }
    r := Ok(());
  }

  method ParseSmf(data: Bytes) returns (r: Result<OwnedSmf, ParseError>)
    requires |data| <= ISIZE_MAX
    ensures match ParseFile(data)
            case Ok(a) => r.Ok? && fresh(r.value) && r.value.View() == a
            case Err(e) => r == Err(e)
  {
    hide HeaderAt, ChunksFrom, ScanChunks, BuildChunks;
    var summary :- ScanSmf(data);
    ScanKeepsHeader(data);
    var cursor := new Cursor(data, 0);
    SkipHeader(cursor);
    var owned := new OwnedSmf(summary);
    var _ :- ParseTracks(cursor, summary.header.trackCount, owned, Started(summary.header));
    r := Ok(owned);
  }
}
