/** The crate's `TickScore`: growing columns, one text arena, and a note column materialized on demand. */
module ScoreArena {
  import opened Base
  import opened Smf
  import opened NoteColumns
  import opened ScoreTypes
  import opened Scores
  import opened ScoreEmission
  import opened ScoreGrammar
  import opened StableSort
  import Utf8

  type RetainedSegment = s: NoteSegment | s.timing.Valid() witness NoteSegment(Narrow([]))

  function SegmentViews(segments: seq<RetainedSegment>): (r: seq<Segment>)
    ensures |r| == |segments|
  {
    seq(|segments|, i requires 0 <= i < |segments| => segments[i].View())
  }

  /** The counters of one parse; an unlimited policy has no limits to compare them with. */
  class Budget {
    const policy: Policy
    var events: nat
    var noteStarts: nat

    constructor (policy: Policy)
      ensures this.policy == policy && events == 0 && noteStarts == 0
    {
      this.policy, events, noteStarts := policy, 0, 0;
    }

    method ChargeEvent(offset: nat) returns (r: Result<(), ParseError>)
      modifies this`events
      ensures match ScoreGrammar.ChargeEvent(policy, old(events), offset)
              case Ok(n) => r == Ok(()) && events == n
              case Err(e) => r == Err(e)
    {
      if policy.Some? && events >= policy.value.maxEvents {
        return Err(Exceeded(offset, Events, policy.value.maxEvents));
      }
      events := events + 1;
      r := Ok(());
    }

    method ChargeNoteStart(offset: nat) returns (r: Result<(), ParseError>)
      modifies this`noteStarts
      ensures match ScoreGrammar.ChargeNoteStart(policy, old(noteStarts), offset)
              case Ok(n) => r == Ok(()) && noteStarts == n
              case Err(e) => r == Err(e)
    {
      if policy.Some? && noteStarts >= policy.value.maxNoteStarts {
        return Err(Exceeded(offset, NoteStarts, policy.value.maxNoteStarts));
      }
      noteStarts := noteStarts + 1;
      r := Ok(());
    }

    /** The check never adds the two sizes, so it cannot overflow. */
    function CheckTextAppend(current: nat, appended: nat, offset: nat): (r: Result<(), ParseError>)
      ensures r == CheckText(policy, current + appended, offset)
    {
      if policy.Some? && (current > policy.value.maxTextBytes || appended > policy.value.maxTextBytes - current) then
        Err(Exceeded(offset, TextBytes, policy.value.maxTextBytes))
      else Ok(())
    }
  }

  /** A column with more rows, and the range they got. */
  method AppendColumn<T>(output: seq<T>, input: seq<T>, end: nat) returns (r: Result<(seq<T>, ScoreRange), ParseError>)
    ensures match AppendedRange(|output|, |input|, end)
            case Ok(range) => r == Ok((output + input, range))
            case Err(e) => r == Err(e)
  {
    if |output| > U32_MAX || |input| > U32_MAX {
      return Err(At(end, SizeOverflow));
    }
    var start: u32, len: u32 := |output|, |input|;
    if start > U32_MAX - len {
      return Err(At(end, SizeOverflow));
    }
    r := Ok((output + input, ScoreRange(start, len)));
  }

  class TickScore {
    const header: Header
    var tracks: seq<TickTrack>
    var noteSegments: seq<RetainedSegment>
    var notes: Option<seq<TickNote>>
    var noteCount: u32
    var controls: seq<TickControlChange>
    var pitchBends: seq<TickPitchBend>
    var pedals: seq<TickPedal>
    var lyrics: seq<TickText>
    var tempos: seq<TickTempo>
    var timeSignatures: seq<TickTimeSignature>
    var keySignatures: seq<TickKeySignature>
    var markers: seq<TickText>
    var textData: Bytes
    var bytesConsumed: nat
    var trailingBytes: nat

    constructor (header: Header)
      ensures View() == EmptyScore(header) && notes == None
    {
      this.header := header;
      tracks, noteSegments, notes, noteCount := [], [], None, 0;
      controls, pitchBends, pedals, lyrics := [], [], [], [];
      tempos, timeSignatures, keySignatures, markers := [], [], [], [];
      textData, bytesConsumed, trailingBytes := [], 0, 0;
    }

    function View(): Score
      reads this
    {
      Score(header, tracks, SegmentViews(noteSegments), noteCount, controls, pitchBends, pedals, lyrics,
            tempos, timeSignatures, keySignatures, markers, textData, bytesConsumed, trailingBytes)
    }

    /** A materialized note column is the concatenation of the segments. */
    ghost predicate NotesCached()
      reads this
    {
      notes.Some? ==> notes.value == Flattened(View().segments, |View().segments|)
    }

    /** Appends text with every malformed part replaced, checking the text budget before each append. */
    method AppendNormalized(text: Bytes, eventOffset: nat, budget: Budget) returns (r: Result<(), ParseError>)
      modifies this`textData
      ensures match CheckText(budget.policy, |old(textData)| + |Utf8.Normalize(text)|, eventOffset)
              case Ok(_) => r == Ok(()) && textData == old(textData) + Utf8.Normalize(text)
              case Err(e) => r == Err(e)
    {
      hide Utf8.StepAt, Utf8.Normalize;
      var remaining := text;
      while true
        invariant textData + Utf8.Normalize(remaining) == old(textData) + Utf8.Normalize(text)
        decreases |remaining|
      {
        Utf8.NormalizeFromError(remaining);
        var valid := Utf8.ValidUpTo(remaining);
        if valid == |remaining| {
          var _ :- budget.CheckTextAppend(|textData|, |remaining|, eventOffset);
          textData := textData + remaining;
          return Ok(());
        }
        var _ :- budget.CheckTextAppend(|textData|, valid, eventOffset);
        textData := textData + remaining[..valid];
        var _ :- budget.CheckTextAppend(|textData|, |Utf8.REPLACEMENT|, eventOffset);
        textData := textData + Utf8.REPLACEMENT;
        var invalid := Utf8.StepAt(remaining[valid..]).len;
        Utf8.Rejoin(remaining, valid, invalid);
        remaining := remaining[valid + invalid..];
      }
    }

    method PushText(text: Bytes, eventOffset: nat, budget: Budget, end: nat) returns (r: Result<TextRange, ParseError>)
      modifies this`textData
      ensures match ScoreGrammar.PushText(budget.policy, old(View()), text, eventOffset, end)
              case Ok(pushed) => r == Ok(pushed.1) && View() == pushed.0
              case Err(e) => r == Err(e)
    {
      hide Utf8.Normalize;
      if |textData| > U32_MAX {
        return Err(At(end, SizeOverflow));
      }
      var start: u32 := |textData|;
      var _ :- AppendNormalized(text, eventOffset, budget);
      if |textData| > U32_MAX {
        return Err(At(end, SizeOverflow));
      }
      r := Ok(TextRange(start, |textData| - start));
    }

    method PushNoteSegment(segment: RetainedSegment, end: nat) returns (r: Result<ScoreRange, ParseError>)
      modifies this`noteSegments, this`noteCount
      ensures match AppendedRange(old(noteCount), |segment.View().notes|, end)
              case Ok(range) =>
                && r == Ok(range) && noteCount == old(noteCount) + |segment.View().notes|
                && SegmentViews(noteSegments) == SegmentViews(old(noteSegments)) + [segment.View()]
              case Err(e) => r == Err(e)
    {
      var start: u32 := noteCount;
      if |segment.timing.rows| > U32_MAX || start > U32_MAX - |segment.timing.rows| {
        return Err(At(end, SizeOverflow));
      }
      var len: u32 := |segment.timing.rows|;
      noteCount := start + len;
      noteSegments := noteSegments + [segment];
      r := Ok(ScoreRange(start, len));
    }

    /** The global note column: built on the first call, returned unchanged afterwards. */
    method Notes() returns (r: seq<TickNote>)
      requires NotesCached()
      modifies this`notes
      ensures NotesCached() && View() == old(View())
      ensures r == Flattened(View().segments, |View().segments|)
    {
      if notes.None? {
        var values: seq<TickNote> := [];
        for i := 0 to |noteSegments|
          invariant values == Flattened(View().segments, i)
        {
          values := values + noteSegments[i].View().notes;
        }
        notes := Some(values);
      }
      r := notes.value;
    }

    /** The last step of a parse: offsets, and the score-wide rows in time order. */
    method SortGlobals()
      modifies this`tempos, this`timeSignatures, this`keySignatures, this`markers
      ensures View() == ScoreGrammar.SortGlobals(old(View()))
    {
      tempos, timeSignatures := Sort(tempos), Sort(timeSignatures);
      keySignatures, markers := Sort(keySignatures), Sort(markers);
    }
  }
}
