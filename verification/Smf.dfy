/** The vocabulary shared by all decoders: headers, events and located errors. */
module Smf {
  import opened Base

  datatype Format = SingleTrack | Parallel | Sequential

  datatype Header = Header(format: Format, trackCount: u16, division: u16)

  datatype ScoreResource = InputBytes | SourceTracks | TrackBytes | Events | NoteStarts | TextBytes

  datatype ErrorKind =
    | UnexpectedEnd
    | ExpectedChunk(expected: Bytes, actual: Bytes)
    | HeaderTooShort(size: u32)
    | InvalidFormat(format: u16)
    | VariableLengthQuantityTooLong
    | RunningStatusMissing
    | InvalidDataByte(byte: u8)
    | InvalidStatus(status: u8)
    | InvalidMetaEvent(metaType: u8, length: nat)
    | InvalidTimeSignatureDenominator(exponent: u8)
    | TickOverflow
    | SizeOverflow
    | ResourceLimitExceeded(resource: ScoreResource, limit: nat)
    | InvalidTicksPerQuarter
    | InvalidSmpteDivision(framesPerSecond: i8, ticksPerFrame: u8)
    | InvalidEndOfTrackLength(eotLength: nat)
    | MissingEndOfTrack
    | EventAfterEndOfTrack
    | TrailingBytes

  /** A failure with an absolute byte offset into the source buffer. */
  datatype ParseError = At(offset: nat, kind: ErrorKind)

  /** The failures of the wire grammar itself. */
  predicate Structural(kind: ErrorKind) {
    || kind.UnexpectedEnd? || kind.ExpectedChunk? || kind.HeaderTooShort? || kind.InvalidFormat?
    || kind.VariableLengthQuantityTooLong? || kind.RunningStatusMissing?
    || kind.InvalidDataByte? || kind.InvalidStatus?
  }

  type ChannelStatus = s: int | 0x80 <= s < 0xF0 witness 0x80

  type SystemStatus = s: int | s == 0xF0 || s == 0xF7 witness 0xF0

  /** A channel status that needs no repeating, or none after a meta or system event. */
  type Running = Option<ChannelStatus>

  /** One event body. A one-byte channel message carries 0 as its second byte. */
  datatype Event =
    | Channel(status: ChannelStatus, first: u7, second: u7)
    | Meta(metaType: u8, payload: Bytes)
    | SysEx(sysStatus: SystemStatus, payload: Bytes)

  const HEADER_CHUNK: Bytes := [0x4D, 0x54, 0x68, 0x64]
  const TRACK_CHUNK: Bytes := [0x4D, 0x54, 0x72, 0x6B]

  const END_OF_TRACK: u8 := 0x2F

  /** Program change and channel pressure carry one data byte, all others two. */
  predicate OneDataByte(status: ChannelStatus) {
    status / 16 == 0x0C || status / 16 == 0x0D
  }

  function FormatOf(raw: u16): Option<Format> {
    match raw
    case 0 => Some(SingleTrack)
    case 1 => Some(Parallel)
    case 2 => Some(Sequential)
    case _ => None
  }
}
