/** Rows of a tick score. Every category is a value stamped with an absolute tick. */
module ScoreTypes {
  import opened Base
  import opened Smf
  import opened NoteColumns

  datatype Timed<+T> = Timed(time: u64, value: T)

  datatype TextRange = TextRange(start: u32, len: u32)
  datatype ScoreRange = ScoreRange(start: u32, len: u32)

  datatype ControlChange = ControlChange(number: u7, level: u7)
  datatype TimeSignature = TimeSignature(numerator: u8, denominator: u64)
  datatype KeySignature = KeySignature(key: i8, tonality: u8)

  type TickControlChange = Timed<ControlChange>
  type TickPitchBend = Timed<i16>
  type TickPedal = Timed<u64>               // the value is the duration
  type TickText = Timed<TextRange>
  type TickTempo = Timed<u32>               // microseconds per quarter note
  type TickTimeSignature = Timed<TimeSignature>
  type TickKeySignature = Timed<KeySignature>

  datatype TickTrack = TickTrack(
    sourceTrack: nat,
    channel: u4,
    program: u7,
    isDrum: bool,
    name: TextRange,
    notes: ScoreRange,
    controls: ScoreRange,
    pitchBends: ScoreRange,
    pedals: ScoreRange,
    lyrics: ScoreRange)

  /** In time order, equal times allowed, and none after `now`. */
  ghost predicate Ordered<T>(s: seq<Timed<T>>, now: nat) {
    && (forall i, j :: 0 <= i < j < |s| ==> s[i].time <= s[j].time)
    && (forall i :: 0 <= i < |s| ==> s[i].time <= now)
  }
}
