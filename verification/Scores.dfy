/** The tick score: its columns, its text arena, and how a finished track is appended to it. */
module Scores {
  import opened Base
  import opened Smf
  import opened NoteColumns
  import opened ScoreTypes
  import opened TrackModel

  /** The value of a `TickScore`. */
  datatype Score = Score(
    header: Header,
    tracks: seq<TickTrack>,
    segments: seq<Segment>,
    noteCount: u32,
    controls: seq<TickControlChange>,
    pitchBends: seq<TickPitchBend>,
    pedals: seq<TickPedal>,
    lyrics: seq<TickText>,
    tempos: seq<TickTempo>,
    timeSignatures: seq<TickTimeSignature>,
    keySignatures: seq<TickKeySignature>,
    markers: seq<TickText>,
    textData: Bytes,
    bytesConsumed: nat,
    trailingBytes: nat)

  function EmptyScore(header: Header): Score {
    Score(header, [], [], 0, [], [], [], [], [], [], [], [], [], 0, 0)
  }

  /** The range of `count` rows appended after `before` rows; all offsets must fit a `u32`. */
  function AppendedRange(before: nat, count: nat, end: nat): Result<ScoreRange, ParseError> {
    if before > U32_MAX || count > U32_MAX || before + count > U32_MAX then Err(At(end, SizeOverflow))
    else Ok(ScoreRange(before, count))
  }

  datatype RowRanges = RowRanges(controls: ScoreRange, pitchBends: ScoreRange, pedals: ScoreRange, lyrics: ScoreRange)

  /** The ranges of a group's rows behind columns of these lengths. */
  function RangesOf(controlCount: nat, bendCount: nat, pedalCount: nat, lyricCount: nat, g: Group, end: nat)
    : Result<RowRanges, ParseError>
  {
    var controls :- AppendedRange(controlCount, |g.controls|, end);
    var pitchBends :- AppendedRange(bendCount, |g.pitchBends|, end);
    var pedals :- AppendedRange(pedalCount, |g.pedals|, end);
    var lyrics :- AppendedRange(lyricCount, |g.lyrics|, end);
    Ok(RowRanges(controls, pitchBends, pedals, lyrics))
  }

  /** Appends one group as an output track. */
  function EmitGroup(s: Score, g: Group, sourceTrack: nat, name: TextRange, end: nat): Result<Score, ParseError> {
    var segment := SegmentOf(g.columns);
    var notes :- AppendedRange(s.noteCount, |segment.notes|, end);
    var rows :- RangesOf(|s.controls|, |s.pitchBends|, |s.pedals|, |s.lyrics|, g, end);
    Ok(s.(segments := s.segments + [segment],
          noteCount := s.noteCount + |segment.notes|,
          controls := s.controls + g.controls,
          pitchBends := s.pitchBends + g.pitchBends,
          pedals := s.pedals + g.pedals,
          lyrics := s.lyrics + g.lyrics,
          tracks := s.tracks + [TickTrack(sourceTrack, g.channel, g.program, g.channel == 9, name,
                                          notes, rows.controls, rows.pitchBends, rows.pedals, rows.lyrics)]))
  }

  /** Emits the groups from `key` on, in channel and then program order. */
  function EmitFrom(m: Model, key: nat, sourceTrack: nat, name: TextRange, s: Score, end: nat)
    : Result<Score, ParseError>
    requires Valid(m) && key <= KEYS
    decreases KEYS - key
  {
    if key == KEYS then Ok(s)
    else if key in m.index && !m.groups[m.index[key]].IsEmpty() then
      var s' :- EmitGroup(s, m.groups[m.index[key]], sourceTrack, name, end);
      EmitFrom(m, key + 1, sourceTrack, name, s', end)
    else EmitFrom(m, key + 1, sourceTrack, name, s, end)
  }
}
