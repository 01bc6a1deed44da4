/** `parse_score_smf` and its bounded and strict variants as the crate runs them. */
module ScoreParser {
  import opened Base
  import opened Smf
  import opened Wire
  import opened Cursors
  import opened NoteColumns
  import opened ScoreTypes
  import opened TrackModel
  import opened TrackInvariants
  import opened Scores
  import opened ScoreArena
  import opened ScoreGrammar
  import opened Bits
  import opened TrackBuilder
  import ArenaParser

  // ----- Channel data

  method ReadScoreDataByte(cursor: Cursor) returns (r: Result<u7, ParseError>)
    requires cursor.Valid()
    modifies cursor`position
    ensures cursor.Valid() && cursor.Moved(r, DataByteAt(cursor.data, old(cursor.position), cursor.base), old(cursor.position))
  {
    var offset := cursor.AbsoluteOffset();
    var byte :- cursor.ReadU8();
    r := ValidateDataByte(offset, byte);
  }

  /** The scalar twin of the arena parser's loop: same bytes, same errors. */
  method ReadScoreChannelData(cursor: Cursor, firstData: Option<u8>, status: ChannelStatus)
    returns (r: Result<(u7, u7), ParseError>)
    requires cursor.Valid() && (firstData.Some? ==> cursor.position > 0)
    modifies cursor`position
    ensures cursor.Valid()
    ensures match ChannelAt(cursor.data, old(cursor.position), cursor.base, status, firstData)
            case Ok(read) => r == Ok((read.value.first, read.value.second)) && cursor.position == read.next
            case Err(e) => r == Err(e)
  {
    var first: u7;
    if firstData.Some? {
      first :- ValidateDataByte(cursor.AbsoluteOffset() - 1, firstData.value);
    } else {
      first :- ReadScoreDataByte(cursor);
    }
    if status / 16 == 0x0C || status / 16 == 0x0D {
      return Ok((first, 0));
    }
    var second :- ReadScoreDataByte(cursor);
    r := Ok((first, second));
  }

  // ----- Event semantics

  class ScoreTrackSemantics {
    const builder: ScoreTrackBuilder
    const score: TickScore
    const budget: Budget
    var name: TextRange

    constructor (builder: ScoreTrackBuilder, score: TickScore, budget: Budget)
      ensures this.builder == builder && this.score == score && this.budget == budget && name == TextRange(0, 0)
    {
      this.builder, this.score, this.budget, name := builder, score, budget, TextRange(0, 0);
    }

    /** The state of the run that the grammar speaks about. */
    ghost function View(time: u64): (run: Run)
      reads this, builder, score, budget
      ensures run.time == time && run.model == builder.model
    {
      Run(score.View(), builder.model, name, time, budget.events, budget.noteStarts)
    }

    lemma ViewLater(time: u64)
      ensures forall later: u64 :: View(time).(time := later) == View(later)
    {}

    lemma Separate()
      ensures score !in builder.Repr() && budget !in builder.Repr() && this !in builder.Repr() && builder in builder.Repr()
    {}

    lemma SeparateCursor(cursor: Cursor)
      ensures cursor !in builder.Repr()
    {}

    /** A control change, which is also a pedal event if it is number 64. */
    method DeliverControl(channel: u4, number: u7, level: u7, time: u64) returns (r: Result<(), ParseError>)
      requires builder.Valid()
      modifies builder.Repr()
      ensures fresh(builder.Repr() - old(builder.Repr())) && builder.noteStarts == old(builder.noteStarts)
      ensures match Apply(old(builder.model), Control(channel, number, level), time)
              case Ok(m) => r == Ok(()) && builder.Valid() && builder.model == m
              case Err(e) => r == Err(e)
    {
      hide ScoreTrackBuilder.Valid, AddControl, HandlePedal;
      builder.Footprint();
      builder.AddControl(channel, time, number, level);
      r := Ok(());
      if number == 64 {
        r := builder.HandlePedal(channel, time, level);
      }
    }

    /** A note message; a note-on with velocity zero is a note-off. */
    method DeliverNote(status: ChannelStatus, data: (u7, u7), time: u64, end: nat)
      requires builder.Valid() && status / 16 in {0x8, 0x9} && (status / 16 == 0x9 ==> builder.noteStarts < U32_MAX)
      modifies builder.Repr()
      ensures fresh(builder.Repr() - old(builder.Repr()))
      ensures builder.noteStarts <= old(builder.noteStarts) + if status / 16 == 0x9 then 1 else 0
      ensures builder.Valid() && Apply(old(builder.model), OpOf(status, data.0, data.1), time) == Ok(builder.model)
    {
      hide ScoreTrackBuilder.Valid, AddNote, EndNote;
      builder.Footprint();
      if status / 16 == 0x8 || data.1 == 0 {
        builder.EndNote(status % 16, data.0, time);
      } else {
        builder.AddNote(status % 16, data.0, data.1, time, end);
      }
    }

    /** Hands a channel message to the builder. */
    method Deliver(status: ChannelStatus, data: (u7, u7), time: u64, end: nat) returns (r: Result<(), ParseError>)
      requires builder.Valid() && (status / 16 == 0x9 ==> builder.noteStarts < U32_MAX)
      modifies builder.Repr()
      ensures fresh(builder.Repr() - old(builder.Repr()))
      ensures builder.noteStarts <= old(builder.noteStarts) + if status / 16 == 0x9 then 1 else 0
      ensures match Apply(old(builder.model), OpOf(status, data.0, data.1), time)
              case Ok(m) => r == Ok(()) && builder.Valid() && builder.model == m
              case Err(e) => r == Err(e)
    {
      hide ScoreTrackBuilder.Valid, AddNote, EndNote, AddControl, HandlePedal, AddPitchBend, SetProgram;
      var channel: u4, kind := status % 16, status / 16;
      if kind == 0x8 || kind == 0x9 {
        DeliverNote(status, data, time, end);
      } else if kind == 0xB {
        r := DeliverControl(channel, data.0, data.1, time);
        return;
      } else if kind == 0xC {
        builder.SetProgram(channel, data.0);
      } else if kind == 0xE {
        builder.Footprint();
        builder.AddPitchBend(channel, time, data.0 + data.1 * 0x80 - 8192);
      }
      r := Ok(());
    }

    method Channel(status: ChannelStatus, data: (u7, u7), time: u64, eventOffset: nat, end: nat)
      returns (r: Result<(), ParseError>)
      requires builder.Valid() && (status / 16 == 0x9 ==> builder.noteStarts < U32_MAX)
      modifies builder.Repr(), budget`noteStarts
      ensures r.Ok? ==> fresh(builder.Repr() - old(builder.Repr()))
      ensures builder.noteStarts <= old(builder.noteStarts) + if status / 16 == 0x9 then 1 else 0
      ensures match ApplyChannel(budget.policy, old(View(time)), status, data.0, data.1, eventOffset)
              case Ok(run) => r == Ok(()) && builder.Valid() && View(time) == run
              case Err(e) => r == Err(e)
    {
      hide ScoreTrackBuilder.Valid, ScoreTrackBuilder.Repr, Apply;
      Separate();
      if status / 16 == 0x9 && data.1 != 0 {
        var _ :- budget.ChargeNoteStart(eventOffset);
      }
      label Before:
      r := Deliver(status, data, time, end);
      forall o | r.Ok? && o in builder.Repr() && o !in old(builder.Repr()) ensures fresh(o) {
        assert fresh@Before(o);
      }
    }

    method Lyric(time: u64, text: TextRange)
      requires builder.Valid()
      modifies builder.Repr()
      ensures fresh(builder.Repr() - old(builder.Repr())) && builder.noteStarts == old(builder.noteStarts)
      ensures builder.Valid() && builder.model == AddLyric(old(builder.model), time, text)
    {
      hide ScoreTrackBuilder.Valid, AddLyric;
      builder.Footprint();
      builder.AddLyric(time, text);
    }

    /** Tempo, time signature and key signature, each with a payload of its own shape. */
    method Timing(metaType: u8, payload: Bytes, time: u64, eventOffset: nat, end: nat) returns (r: Result<(), ParseError>)
      requires metaType in {0x51, 0x58, 0x59} && TrackModel.Valid(builder.model)
      modifies score`tempos, score`timeSignatures, score`keySignatures
      ensures match ApplyMeta(budget.policy, old(View(time)), metaType, payload, eventOffset, end)
              case Ok(run) => r == Ok(()) && View(time) == run
              case Err(e) => r == Err(e)
    {
      hide TrackModel.Valid, AddLyric, PushText, MetaTempo, MetaTimeSignature, MetaKeySignature;
      if metaType == 0x51 {
        if |payload| != 3 {
          return Err(InvalidLength(metaType, payload, eventOffset));
        }
        score.tempos := score.tempos + [Timed(time, MetaTempo(payload))];
      } else if metaType == 0x58 {
        if |payload| != 4 {
          return Err(InvalidLength(metaType, payload, eventOffset));
        }
        if payload[1] >= 64 {
          return Err(At(eventOffset, InvalidTimeSignatureDenominator(payload[1])));
        }
        score.timeSignatures := score.timeSignatures + [Timed(time, MetaTimeSignature(payload))];
      } else if metaType == 0x59 {
        if |payload| != 2 {
          return Err(InvalidLength(metaType, payload, eventOffset));
        }
        score.keySignatures := score.keySignatures + [Timed(time, MetaKeySignature(payload))];
      }
      r := Ok(());
    }

    /** A track name or a marker. */
    method Label(metaType: u8, payload: Bytes, time: u64, eventOffset: nat, end: nat) returns (r: Result<(), ParseError>)
      requires (metaType == 0x03 || (metaType == 0x06 && payload != [])) && TrackModel.Valid(builder.model)
      modifies this`name, score
      ensures score.notes == old(score.notes)
      ensures match ApplyMeta(budget.policy, old(View(time)), metaType, payload, eventOffset, end)
              case Ok(run) => r == Ok(()) && View(time) == run
              case Err(e) => r == Err(e)
    {
      hide TrackModel.Valid, AddLyric, PushText, MetaTempo, MetaTimeSignature, MetaKeySignature;
      var text :- score.PushText(payload, eventOffset, budget, end);
      if metaType == 0x03 {
        name := text;
      } else {
        score.markers := score.markers + [Timed(time, text)];
      }
      r := Ok(());
    }

    method Meta(metaType: u8, payload: Bytes, time: u64, eventOffset: nat, end: nat) returns (r: Result<(), ParseError>)
      requires builder.Valid()
      modifies this`name, score, builder.Repr()
      ensures score.notes == old(score.notes)
      ensures r.Ok? ==> fresh(builder.Repr() - old(builder.Repr()))
      ensures builder.noteStarts == old(builder.noteStarts)
      ensures match ApplyMeta(budget.policy, old(View(time)), metaType, payload, eventOffset, end)
              case Ok(run) => r == Ok(()) && builder.Valid() && View(time) == run
              case Err(e) => r == Err(e)
    {
      hide ScoreTrackBuilder.Valid, ScoreTrackBuilder.Repr, AddLyric, PushText, MetaTempo, MetaTimeSignature, MetaKeySignature;
      Separate();
      if metaType == 0x03 || (metaType == 0x06 && payload != []) {
        r := Label(metaType, payload, time, eventOffset, end);
        return;
      } else if metaType == 0x05 && payload != [] {
        var text :- score.PushText(payload, eventOffset, budget, end);
        label Before:
        Lyric(time, text);
        forall o | o in builder.Repr() && o !in old(builder.Repr()) ensures fresh(o) {
          assert fresh@Before(o);
        }
      } else if metaType in {0x51, 0x58, 0x59} {
        r := Timing(metaType, payload, time, eventOffset, end);
        return;
      }
      r := Ok(());
    }
  }

  // ----- One event

  /** What one framed event does: the run continues, or the track ends. */
  ghost function EventOutcome(policy: Policy, grammar: Grammar, now: Run, e: TimedEvent): Result<Run, ParseError>
    requires TrackModel.Valid(now.model)
  {
    if grammar.StopsAtEndOfTrack() && IsEndOfTrack(e.event) then EndTrack(policy, grammar, now, e)
    else Perform(policy, now, e)
  }

  /** The run, whether the track ended, and the position after an event read at absolute offset `offset`. */
  ghost function OutcomeOf(policy: Policy, grammar: Grammar, now: Run, reading: Reading<Event>,
                           delta: Read<u28>, offset: nat, base: nat, size: nat)
    : (r: Result<(Run, bool, nat), ParseError>)
    requires TrackModel.Valid(now.model) && (reading.Ok? ==> reading.value.next <= size)
    ensures r.Ok? ==> reading.Ok? && reading.value.next <= r.value.2
    ensures r.Ok? ==> r.value.1 == (grammar.StopsAtEndOfTrack() && IsEndOfTrack(reading.value.value))
    ensures r.Ok? && r.value.1 ==> r.value.2 == size
    ensures reading.Err? ==> r == Err(reading.error)
  {
    var read :- reading;
    var e := TimedEvent(delta.next, delta.value, offset, read.value, base + read.next, size - read.next);
    var run :- EventOutcome(policy, grammar, now, e);
    var ended := grammar.StopsAtEndOfTrack() && IsEndOfTrack(read.value);
    Ok((run, ended, if ended then size else read.next))
  }

  /** The first End-of-Track: strictly it is empty and last, otherwise the rest of the chunk is skipped. */
  method HandleEndOfTrack(grammar: Grammar, cursor: Cursor, budget: Budget, length: nat, eventOffset: nat)
    returns (r: Result<(), ParseError>)
    requires cursor.Valid()
    modifies cursor`position, budget`events
    ensures cursor.Valid()
    ensures r == if grammar.RequiresEndOfTrack() && length != 0 then Err(At(eventOffset, InvalidEndOfTrackLength(length)))
                 else if ScoreGrammar.ChargeEvent(budget.policy, old(budget.events), eventOffset).Err?
                 then Err(ScoreGrammar.ChargeEvent(budget.policy, old(budget.events), eventOffset).error)
                 else if grammar.RequiresEndOfTrack() && old(cursor.position) != |cursor.data|
                 then Err(At(cursor.base + old(cursor.position), EventAfterEndOfTrack))
                 else Ok(())
    ensures r.Ok? ==> cursor.position == |cursor.data| && budget.events == old(budget.events) + 1
  {
    if grammar.RequiresEndOfTrack() && length != 0 {
      return Err(At(eventOffset, InvalidEndOfTrackLength(length)));
    }
    var _ :- budget.ChargeEvent(eventOffset);
    if grammar.RequiresEndOfTrack() && cursor.Remaining() != 0 {
      return Err(At(cursor.AbsoluteOffset(), EventAfterEndOfTrack));
    }
    if !grammar.RequiresEndOfTrack() {
      var _ := cursor.ReadSlice(cursor.Remaining());
    }
    r := Ok(());
  }

  /** A validated, charged meta event. */
  method PerformMeta(semantics: ScoreTrackSemantics, time: u64, ghost e: TimedEvent, metaType: u8, payload: Bytes,
                     eventOffset: nat, end: nat)
    returns (r: Result<(), ParseError>)
    requires semantics.builder.Valid()
    requires e.event == Event.Meta(metaType, payload) && e.offset == eventOffset && e.end == end
    modifies semantics`name, semantics.score, semantics.budget`events, semantics.builder.Repr()
    ensures semantics.score.notes == old(semantics.score.notes)
    ensures semantics.builder.noteStarts == old(semantics.builder.noteStarts)
    ensures r.Ok? ==> fresh(semantics.builder.Repr() - old(semantics.builder.Repr())) && semantics.builder.Valid()
    ensures match Perform(semantics.budget.policy, old(semantics.View(time)), e)
            case Err(error) => r == Err(error)
            case Ok(run) => r == Ok(()) && semantics.View(time) == run
  {
    hide ScoreTrackBuilder.Valid, ScoreTrackBuilder.Repr, TickScore.View, ApplyMeta, ValidateMeta;
    semantics.Separate();
    var _ :- ValidateMeta(metaType, payload, eventOffset);
    var _ :- semantics.budget.ChargeEvent(eventOffset);
    label Before:
    r := semantics.Meta(metaType, payload, time, eventOffset, end);
    forall o | r.Ok? && o in semantics.builder.Repr() && o !in old(semantics.builder.Repr()) ensures fresh(o) {
      assert fresh@Before(o);
    }
  }

  method ReadMeta(cursor: Cursor) returns (r: Result<(u8, Bytes), ParseError>)
    requires cursor.Valid()
    modifies cursor`position
    ensures cursor.Valid()
    ensures match MetaAt(cursor.data, old(cursor.position), cursor.base)
            case Err(e) => r == Err(e)
            case Ok(read) => r == Ok((read.value.metaType, read.value.payload)) && cursor.position == read.next
  {
    hide PayloadAt;
    var metaType :- cursor.ReadU8();
    var payload :- ArenaParser.ReadPayload(cursor);
    r := Ok((metaType, payload));
  }

  /** A meta event after its `FF` byte; true when it ended the track. */
  method ScoreMetaEvent(grammar: Grammar, cursor: Cursor, semantics: ScoreTrackSemantics, time: u64, eventOffset: nat,
                        ghost delta: Read<u28>)
    returns (r: Result<bool, ParseError>)
    requires cursor.Valid() && semantics.builder.Valid()
    modifies cursor`position, semantics`name, semantics.score, semantics.budget`events, semantics.builder.Repr()
    ensures semantics.score.notes == old(semantics.score.notes)
    ensures cursor.Valid() && semantics.builder.noteStarts == old(semantics.builder.noteStarts)
    ensures r.Ok? ==> fresh(semantics.builder.Repr() - old(semantics.builder.Repr())) && semantics.builder.Valid()
    ensures match OutcomeOf(semantics.budget.policy, grammar, old(semantics.View(time)),
                            MetaAt(cursor.data, old(cursor.position), cursor.base), delta, eventOffset, cursor.base, |cursor.data|)
            case Err(e) => r == Err(e)
            case Ok(o) => r == Ok(o.1) && semantics.View(time) == o.0 && cursor.position == o.2
  {
    hide ScoreTrackBuilder.Valid, ScoreTrackBuilder.Repr, TickScore.View, MetaAt, Perform;
    semantics.Separate();
    semantics.SeparateCursor(cursor);
    var meta :- ReadMeta(cursor);
    var (metaType, payload) := meta;
    if grammar.StopsAtEndOfTrack() && metaType == END_OF_TRACK {
      var _ :- HandleEndOfTrack(grammar, cursor, semantics.budget, |payload|, eventOffset);
      return Ok(true);
    }
    ghost var e := TimedEvent(delta.next, delta.value, eventOffset, Event.Meta(metaType, payload),
                              cursor.AbsoluteOffset(), cursor.Remaining());
    label Before:
    var _ :- PerformMeta(semantics, time, e, metaType, payload, eventOffset, cursor.AbsoluteOffset());
    forall o | o in semantics.builder.Repr() && o !in old(semantics.builder.Repr()) ensures fresh(o) {
      assert fresh@Before(o);
    }
    r := Ok(false);
  }

  /** A charged channel message. */
  method PerformChannel(semantics: ScoreTrackSemantics, time: u64, ghost e: TimedEvent, status: ChannelStatus,
                        data: (u7, u7), eventOffset: nat, end: nat)
    returns (r: Result<(), ParseError>)
    requires semantics.builder.Valid() && (status / 16 == 0x9 ==> semantics.builder.noteStarts < U32_MAX)
    requires e.event == Event.Channel(status, data.0, data.1) && e.offset == eventOffset
    modifies semantics.budget, semantics.builder.Repr()
    ensures semantics.builder.noteStarts <= old(semantics.builder.noteStarts) + if status / 16 == 0x9 then 1 else 0
    ensures r.Ok? ==> fresh(semantics.builder.Repr() - old(semantics.builder.Repr())) && semantics.builder.Valid()
    ensures match Perform(semantics.budget.policy, old(semantics.View(time)), e)
            case Err(error) => r == Err(error)
            case Ok(run) => r == Ok(()) && semantics.View(time) == run
  {
    hide ScoreTrackBuilder.Valid, ScoreTrackBuilder.Repr, TickScore.View, ApplyChannel;
    semantics.Separate();
    var _ :- semantics.budget.ChargeEvent(eventOffset);
    label Before:
    r := semantics.Channel(status, data, time, eventOffset, end);
    forall o | r.Ok? && o in semantics.builder.Repr() && o !in old(semantics.builder.Repr()) ensures fresh(o) {
      assert fresh@Before(o);
    }
  }

  /** A channel message after its status byte or, under running status, after its first data byte. */
  method ScoreChannelEvent(grammar: Grammar, cursor: Cursor, firstData: Option<u8>, status: ChannelStatus,
                           semantics: ScoreTrackSemantics, time: u64, eventOffset: nat, ghost delta: Read<u28>)
    returns (r: Result<(), ParseError>)
    requires cursor.Valid() && (firstData.Some? ==> cursor.position > 0)
    requires semantics.builder.Valid() && semantics.builder.noteStarts < U32_MAX
    modifies cursor`position, semantics.budget, semantics.builder.Repr()
    ensures cursor.Valid()
    ensures r.Ok? ==> fresh(semantics.builder.Repr() - old(semantics.builder.Repr())) && semantics.builder.Valid()
    ensures r.Ok? ==> semantics.builder.noteStarts <= old(semantics.builder.noteStarts) + 1
    ensures r.Ok? && semantics.builder.noteStarts > old(semantics.builder.noteStarts) ==> cursor.position >= old(cursor.position) + 1
    ensures match OutcomeOf(semantics.budget.policy, grammar, old(semantics.View(time)),
                            ChannelAt(cursor.data, old(cursor.position), cursor.base, status, firstData),
                            delta, eventOffset, cursor.base, |cursor.data|)
            case Err(e) => r == Err(e)
            case Ok(o) => r == Ok(()) && !o.1 && semantics.View(time) == o.0 && cursor.position == o.2
  {
    hide ScoreTrackBuilder.Valid, ScoreTrackBuilder.Repr, TickScore.View, ChannelAt, Perform;
    semantics.Separate();
    semantics.SeparateCursor(cursor);
    var data :- ReadScoreChannelData(cursor, firstData, status);
    ghost var e := TimedEvent(delta.next, delta.value, eventOffset, Event.Channel(status, data.0, data.1),
                              cursor.AbsoluteOffset(), cursor.Remaining());
    label Before:
    r := PerformChannel(semantics, time, e, status, data, eventOffset, cursor.AbsoluteOffset());
    forall o | r.Ok? && o in semantics.builder.Repr() && o !in old(semantics.builder.Repr()) ensures fresh(o) {
      assert fresh@Before(o);
    }
  }

  /** A system-exclusive event after its status byte: framed, charged and dropped. */
  method SkipSysEx(grammar: Grammar, cursor: Cursor, status: SystemStatus, semantics: ScoreTrackSemantics, time: u64,
                   eventOffset: nat, ghost delta: Read<u28>)
    returns (r: Result<(), ParseError>)
    requires cursor.Valid() && semantics.builder.Valid()
    modifies cursor`position, semantics.budget`events
    ensures cursor.Valid() && semantics.builder.Valid()
    ensures match OutcomeOf(semantics.budget.policy, grammar, old(semantics.View(time)),
                            SysExAt(cursor.data, old(cursor.position), cursor.base, status),
                            delta, eventOffset, cursor.base, |cursor.data|)
            case Err(e) => r == Err(e)
            case Ok(o) => r == Ok(()) && !o.1 && semantics.View(time) == o.0 && cursor.position == o.2
  {
    hide ScoreTrackBuilder.Valid, ScoreTrackBuilder.Repr, TickScore.View;
    var length :- cursor.ReadVlq();
    var _ :- cursor.ReadSlice(length);
    r := semantics.budget.ChargeEvent(eventOffset);
  }

  /** One event after its delta time: the running status it leaves, and whether it ended the track. */
  method ScoreEvent(grammar: Grammar, cursor: Cursor, running: Running, semantics: ScoreTrackSemantics, time: u64,
                    ghost delta: Read<u28>)
    returns (r: Result<(Running, bool), ParseError>)
    requires cursor.Valid() && semantics.builder.Valid() && semantics.builder.noteStarts < U32_MAX
    modifies cursor`position, semantics`name, semantics.score, semantics.budget, semantics.builder.Repr()
    ensures semantics.score.notes == old(semantics.score.notes)
    ensures cursor.Valid()
    ensures r.Ok? ==> fresh(semantics.builder.Repr() - old(semantics.builder.Repr())) && semantics.builder.Valid()
    ensures r.Ok? ==> semantics.builder.noteStarts <= old(semantics.builder.noteStarts) + 1
    ensures r.Ok? && semantics.builder.noteStarts > old(semantics.builder.noteStarts) ==> cursor.position >= old(cursor.position) + 2
    ensures var reading := EventAt(cursor.data, old(cursor.position), cursor.base, running);
            match OutcomeOf(semantics.budget.policy, grammar, old(semantics.View(time)), reading,
                            delta, cursor.base + old(cursor.position), cursor.base, |cursor.data|)
            case Err(e) => r == Err(e)
            case Ok(o) =>
              && r == Ok((RunningAfter(reading.value.value), o.1))
              && semantics.View(time) == o.0 && cursor.position == o.2
  {
    hide ScoreTrackBuilder.Valid, ScoreTrackBuilder.Repr, ScoreTrackSemantics.View, MetaAt, SysExAt, ChannelAt, OutcomeOf;
    semantics.Separate();
    semantics.SeparateCursor(cursor);
    var runningStatus := running;
    var eventOffset := cursor.AbsoluteOffset();
    var first :- cursor.ReadU8();
    var status: u8, firstData: Option<u8> := first, None;
    if first < 0x80 {
      if runningStatus.None? {
        return Err(At(eventOffset, RunningStatusMissing));
      }
      status, firstData := runningStatus.value, Some(first);
    } else if first < 0xF0 {
      runningStatus := Some(first);
    }
    label Before:
    if 0x80 <= status <= 0xEF {
      var _ :- ScoreChannelEvent(grammar, cursor, firstData, status, semantics, time, eventOffset, delta);
      r := Ok((runningStatus, false));
    } else if status == 0xFF && firstData.None? {
      var ended :- ScoreMetaEvent(grammar, cursor, semantics, time, eventOffset, delta);
      r := Ok((None, ended));
    } else if (status == 0xF0 || status == 0xF7) && firstData.None? {
      var _ :- SkipSysEx(grammar, cursor, status, semantics, time, eventOffset, delta);
      r := Ok((None, false));
    } else {
      r := Err(At(eventOffset, InvalidStatus(status)));
    }
    forall o | o in semantics.builder.Repr() && o !in old(semantics.builder.Repr()) ensures fresh(o) {
      assert fresh@Before(o);
    }
  }

  // ----- One track

  /** How a run from position `p` unfolds once the delta time there has been read. */
  lemma RunTraceStep(policy: Policy, grammar: Grammar, d: Bytes, p: nat, base: nat, running: Running, run: Run)
    requires p < |d| && TrackModel.Valid(run.model)
    ensures var delta, result := VlqAt(d, p, base), RunTrace(policy, grammar, TraceFrom(d, p, base, running), run, base + |d|);
            match delta
            case Err(e) => result == Err(e)
            case Ok(read) =>
              match Advance(run.time, read.value, base + p)
              case Err(e) => result == Err(e)
              case Ok(time) =>
                var reading := EventAt(d, read.next, base, running);
                match OutcomeOf(policy, grammar, run.(time := time), reading,
                                Read(read.value, base + p), base + read.next, base, |d|)
                case Err(e) => result == Err(e)
                case Ok(o) =>
                  if o.1 then result == Ok(o.0)
                  else
                    && TrackModel.Valid(o.0.model)
                    && result == RunTrace(policy, grammar,
                                          TraceFrom(d, o.2, base, RunningAfter(reading.value.value)), o.0, base + |d|)
  {
    hide TrackModel.Valid, EventAt, VlqAt, Perform, EndTrack;
    var delta := VlqAt(d, p, base);
    if delta.Ok? {
      var time := Advance(run.time, delta.value.value, base + p);
      var reading := EventAt(d, delta.value.next, base, running);
      if time.Ok? && reading.Ok? {
        var e := TimedEvent(base + p, delta.value.value, base + delta.value.next, reading.value.value,
                            base + reading.value.next, |d| - reading.value.next);
        PerformValid(policy, run.(time := time.value), e);
      }
    }
  }

  lemma RunTraceEnd(policy: Policy, grammar: Grammar, run: Run, trackEnd: nat)
    requires TrackModel.Valid(run.model)
    ensures RunTrace(policy, grammar, End, run, trackEnd)
         == if grammar.RequiresEndOfTrack() then Err(At(trackEnd, MissingEndOfTrack)) else Ok(run)
  {}

  /** One turn of the event loop: a delta time and an event. Starting a note takes at least three bytes. */
  method ScoreStep(grammar: Grammar, cursor: Cursor, running: Running, semantics: ScoreTrackSemantics, time: u64)
    returns (r: Result<(Running, u64, bool), ParseError>)
    requires cursor.Valid() && cursor.position < |cursor.data|
    requires semantics.builder.Valid() && semantics.builder.noteStarts < U32_MAX
    modifies cursor`position, semantics`name, semantics.score, semantics.budget, semantics.builder.Repr()
    ensures semantics.score.notes == old(semantics.score.notes)
    ensures cursor.Valid()
    ensures r.Ok? ==> fresh(semantics.builder.Repr() - old(semantics.builder.Repr())) && semantics.builder.Valid()
    ensures r.Ok? ==> 3 * (semantics.builder.noteStarts - old(semantics.builder.noteStarts)) <= cursor.position - old(cursor.position)
    ensures var policy, data, base := semantics.budget.policy, cursor.data, cursor.base;
            var before := RunTrace(policy, grammar, TraceFrom(data, old(cursor.position), base, running),
                                   old(semantics.View(time)), base + |data|);
            match r
            case Err(e) => before == Err(e)
            case Ok((running', time', ended)) =>
              if ended then before == Ok(semantics.View(time')) && cursor.position == |data|
              else
                && cursor.position > old(cursor.position)
                && before == RunTrace(policy, grammar, TraceFrom(data, cursor.position, base, running'),
                                      semantics.View(time'), base + |data|)
  {
    hide ScoreTrackBuilder.Valid, ScoreTrackBuilder.Repr, ScoreTrackSemantics.View, EventAt, VlqAt, RunTrace, OutcomeOf, TraceFrom;
    RunTraceStep(semantics.budget.policy, grammar, cursor.data, cursor.position, cursor.base, running, semantics.View(time));
    semantics.ViewLater(time);
    var deltaOffset := cursor.AbsoluteOffset();
    var delta :- cursor.ReadVlq();
    if time > U64_MAX - delta {
      return Err(At(deltaOffset, TickOverflow));
    }
    var now: u64 := time + delta;
    label Before:
    var event :- ScoreEvent(grammar, cursor, running, semantics, now, Read(delta, deltaOffset));
    forall o | o in semantics.builder.Repr() && o !in old(semantics.builder.Repr()) ensures fresh(o) {
      assert fresh@Before(o);
    }
    r := Ok((event.0, now, event.1));
  }

  /** The event loop: every event of the payload, up to its end or the End-of-Track the grammar stops at. */
  method RunEvents(grammar: Grammar, cursor: Cursor, semantics: ScoreTrackSemantics)
    returns (r: Result<(u64, bool), ParseError>)
    requires cursor.Valid() && cursor.position == 0 && |cursor.data| <= U32_MAX
    requires semantics.builder.Valid() && semantics.builder.noteStarts == 0
    modifies cursor`position, semantics`name, semantics.score, semantics.budget, semantics.builder.Repr()
    ensures semantics.score.notes == old(semantics.score.notes)
    ensures r.Err? ==>
              RunTrace(semantics.budget.policy, grammar, TraceOf(cursor.data, cursor.base), old(semantics.View(0)),
                       cursor.base + |cursor.data|) == Err(r.error)
    ensures r.Ok? ==> semantics.builder.Valid() && cursor.position == |cursor.data|
    ensures r.Ok? ==>
              RunTrace(semantics.budget.policy, grammar, TraceOf(cursor.data, cursor.base), old(semantics.View(0)),
                       cursor.base + |cursor.data|)
              == if r.value.1 then Ok(semantics.View(r.value.0))
                 else RunTrace(semantics.budget.policy, grammar, End, semantics.View(r.value.0), cursor.base + |cursor.data|)
  {
    hide ScoreTrackBuilder.Valid, ScoreTrackBuilder.Repr, ScoreTrackSemantics.View, RunTrace, TraceFrom;
    var runningStatus: Running := None;
    var time: u64 := 0;
    ghost var data, base, policy, builder := cursor.data, cursor.base, semantics.budget.policy, semantics.builder;
    ghost var expected := RunTrace(policy, grammar, TraceOf(data, base), semantics.View(0), base + |data|);
    while cursor.Remaining() != 0
      invariant cursor.Valid() && builder.Valid() && fresh(builder.Repr() - old(builder.Repr()))
      invariant semantics.score.notes == old(semantics.score.notes)
      invariant 3 * builder.noteStarts <= cursor.position
      invariant RunTrace(policy, grammar, TraceFrom(data, cursor.position, base, runningStatus), semantics.View(time), base + |data|)
             == expected
      decreases cursor.Remaining()
    {
      ghost var footprint := builder.Repr();
      label Before:
      var step :- ScoreStep(grammar, cursor, runningStatus, semantics, time);
      forall o | o in builder.Repr() && o !in old(builder.Repr()) ensures fresh(o) {
        assert o in footprint || fresh@Before(o);
      }
      runningStatus, time := step.0, step.1;
      if step.2 {
        return Ok((time, true));
      }
    }
    r := Ok((time, false));
  }

  method RunScoreTrack(grammar: Grammar, cursor: Cursor, semantics: ScoreTrackSemantics)
    returns (r: Result<(), ParseError>)
    requires cursor.Valid() && cursor.position == 0 && |cursor.data| <= U32_MAX
    requires semantics.builder.Valid() && semantics.builder.noteStarts == 0
    modifies cursor`position, semantics`name, semantics.score, semantics.budget, semantics.builder.Repr()
    ensures semantics.score.notes == old(semantics.score.notes)
    ensures match RunTrace(semantics.budget.policy, grammar, TraceOf(cursor.data, cursor.base), old(semantics.View(0)),
                           cursor.base + |cursor.data|)
            case Ok(run) =>
              && r == Ok(()) && semantics.View(run.time) == run
              && semantics.builder.Valid() && cursor.position == |cursor.data|
            case Err(e) => r == Err(e)
  {
    hide ScoreTrackBuilder.Valid, ScoreTrackBuilder.Repr, ScoreTrackSemantics.View, RunTrace, TraceOf;
    var events :- RunEvents(grammar, cursor, semantics);
    var (time, sawEndOfTrack) := events;
    RunTraceEnd(semantics.budget.policy, grammar, semantics.View(time), cursor.AbsoluteOffset());
    if grammar.RequiresEndOfTrack() && !sawEndOfTrack {
      return Err(At(cursor.AbsoluteOffset(), MissingEndOfTrack));
    }
    r := Ok(());
  }

  method ParseScoreTrack(grammar: Grammar, cursor: Cursor, sourceTrack: nat, score: TickScore, budget: Budget)
    returns (r: Result<(), ParseError>)
    requires cursor.Valid() && cursor.position == 0 && |cursor.data| <= U32_MAX
    modifies cursor`position, score, budget
    ensures score.notes == old(score.notes)
    ensures match ScoreTrack(budget.policy, grammar, cursor.data, cursor.base, sourceTrack,
                             FileRun(old(score.View()), old(budget.events), old(budget.noteStarts)))
            case Ok(f) => r == Ok(()) && score.View() == f.score && budget.events == f.events && budget.noteStarts == f.noteStarts
            case Err(e) => r == Err(e)
  {
    hide ScoreTrackBuilder.Valid, RunTrace, TraceOf, EmitFrom, EmptyModel, TickScore.View, TrackModel.Valid;
    var builder := new ScoreTrackBuilder();
    var semantics := new ScoreTrackSemantics(builder, score, budget);
    var _ :- RunScoreTrack(grammar, cursor, semantics);
    r := builder.Finish(sourceTrack, semantics.name, score, cursor.AbsoluteOffset());
  }

  // ----- The file

  /** A header of at least six bytes is declared and framed first, so the three fields can be read. */
  method ReadScoreHeader(policy: Policy, grammar: Grammar, cursor: Cursor) returns (r: Result<Header, ParseError>)
    requires cursor.Valid() && cursor.position == 0 && cursor.base == 0
    modifies cursor`position
    ensures cursor.Valid()
    ensures match ScoreHeaderAt(policy, grammar, cursor.data)
            case Ok(read) => r == Ok(read.value) && cursor.position == read.next
            case Err(e) => r == Err(e)
  {
    hide ValidateDivision, CheckSourceTracks;
    var tag :- cursor.ReadSlice(4);
    if tag != HEADER_CHUNK {
      return Err(At(0, ExpectedChunk(HEADER_CHUNK, tag)));
    }
    var headerSizeOffset := cursor.AbsoluteOffset();
    var headerSize :- cursor.ReadU32();
    if headerSize < 6 {
      return Err(At(headerSizeOffset, HeaderTooShort(headerSize)));
    }
    var headerCursor :- cursor.TakeCursor(headerSize);
    var rawFormat := headerCursor.ReadU16();
    var format := FormatOf(rawFormat.value);
    if format.None? {
      return Err(At(headerCursor.base, InvalidFormat(rawFormat.value)));
    }
    var trackCountOffset := headerCursor.AbsoluteOffset();
    var trackCount := headerCursor.ReadU16();
    var _ :- CheckSourceTracks(policy, trackCount.value, trackCountOffset);
    var divisionOffset := headerCursor.AbsoluteOffset();
    var division := headerCursor.ReadU16();
    if grammar.ValidatesDivision() {
      var _ :- ValidateDivision(division.value, divisionOffset);
    }
    r := Ok(Header(format.value, trackCount.value, division.value));
  }

  /** Frames the next track chunk; its declared size is checked before its payload is taken. */
  method OpenScoreTrack(policy: Policy, cursor: Cursor) returns (r: Result<Cursor, ParseError>)
    requires cursor.Valid() && cursor.base == 0
    modifies cursor`position
    ensures cursor.Valid()
    ensures match FrameAt(cursor.data, old(cursor.position))
            case Unframed(None, e) => r == Err(e)
            case Unframed(Some(size), e) =>
              r == Err(if CheckTrackBytes(policy, size, old(cursor.position) + 4).Err?
                       then CheckTrackBytes(policy, size, old(cursor.position) + 4).error else e)
            case Framed(body) =>
              match CheckTrackBytes(policy, |body|, old(cursor.position) + 4)
              case Err(e) => r == Err(e)
              case Ok(_) =>
                && r.Ok? && fresh(r.value) && r.value.Valid() && r.value.position == 0
                && r.value.data == body && r.value.base == old(cursor.position) + 8
                && cursor.position == r.value.base + |body|
  {
    hide CheckTrackBytes;
    var tagOffset := cursor.AbsoluteOffset();
    var tag :- cursor.ReadSlice(4);
    if tag != TRACK_CHUNK {
      return Err(At(tagOffset, ExpectedChunk(TRACK_CHUNK, tag)));
    }
    var trackSizeOffset := cursor.AbsoluteOffset();
    var trackSize :- cursor.ReadU32();
    var _ :- CheckTrackBytes(policy, trackSize, trackSizeOffset);
    r := cursor.TakeCursor(trackSize);
  }

  /** One turn over the chunks. */
  lemma ScoreChunksNext(policy: Policy, grammar: Grammar, data: Bytes, p: nat, count: nat, sourceTrack: nat, f: FileRun)
    requires p <= |data| && count > 0
    ensures ScoreChunks(policy, grammar, ChunksFrom(data, p, count), sourceTrack, f)
         == match FrameAt(data, p)
            case Unframed(None, e) => Err(e)
            case Unframed(Some(size), e) =>
              (match CheckTrackBytes(policy, size, p + 4)
               case Err(limit) => Err(limit)
               case Ok(_) => Err(e))
            case Framed(body) =>
              match CheckTrackBytes(policy, |body|, p + 4)
              case Err(limit) => Err(limit)
              case Ok(_) =>
                match ScoreTrack(policy, grammar, body, p + 8, sourceTrack, f)
                case Err(e) => Err(e)
                case Ok(next) =>
                  ScoreChunks(policy, grammar, ChunksFrom(data, p + 8 + |body|, count - 1), sourceTrack + 1, next)
  {
    hide FrameAt, ScoreTrack, CheckTrackBytes;
  }

  lemma ScoreChunksDone(policy: Policy, grammar: Grammar, data: Bytes, p: nat, sourceTrack: nat, f: FileRun)
    requires p <= |data|
    ensures ScoreChunks(policy, grammar, ChunksFrom(data, p, 0), sourceTrack, f)
         == if grammar.RejectsTrailingBytes() && p < |data| then Err(At(p, TrailingBytes))
            else Ok(f.score.(bytesConsumed := p, trailingBytes := |data| - p))
  {}


  method ParseScoreTracks(grammar: Grammar, cursor: Cursor, trackCount: u16, score: TickScore, budget: Budget)
    returns (r: Result<(), ParseError>)
    requires cursor.Valid() && cursor.base == 0
    modifies cursor`position, score, budget
    ensures score.notes == old(score.notes)
    ensures match ScoreChunks(budget.policy, grammar, ChunksFrom(cursor.data, old(cursor.position), trackCount), 0,
                              FileRun(old(score.View()), old(budget.events), old(budget.noteStarts)))
            case Ok(s) => r == Ok(()) && score.View() == s
            case Err(e) => r == Err(e)
  {
    hide FrameAt, ScoreTrack, CheckTrackBytes, ChunksFrom, ScoreChunks;
    ghost var expected := ScoreChunks(budget.policy, grammar, ChunksFrom(cursor.data, cursor.position, trackCount), 0,
                                      FileRun(score.View(), budget.events, budget.noteStarts));
    for sourceTrack := 0 to trackCount
      invariant cursor.Valid() && score.notes == old(score.notes)
      invariant ScoreChunks(budget.policy, grammar, ChunksFrom(cursor.data, cursor.position, trackCount - sourceTrack), sourceTrack,
                            FileRun(score.View(), budget.events, budget.noteStarts)) == expected
    {
      ScoreChunksNext(budget.policy, grammar, cursor.data, cursor.position, trackCount - sourceTrack, sourceTrack,
                      FileRun(score.View(), budget.events, budget.noteStarts));
      var track :- OpenScoreTrack(budget.policy, cursor);
      var _ :- ParseScoreTrack(grammar, track, sourceTrack, score, budget);
    }
    ScoreChunksDone(budget.policy, grammar, cursor.data, cursor.position, trackCount,
                    FileRun(score.View(), budget.events, budget.noteStarts));
    score.bytesConsumed := cursor.AbsoluteOffset();
    score.trailingBytes := cursor.Remaining();
    if grammar.RejectsTrailingBytes() && score.trailingBytes != 0 {
      return Err(At(score.bytesConsumed, TrailingBytes));
    }
    r := Ok(());
  }

  /** Every policy and grammar: the parser returns what the grammar says, error for error. */
  method ParseScoreSmf(policy: Policy, grammar: Grammar, data: Bytes) returns (r: Result<TickScore, ParseError>)
    requires |data| <= ISIZE_MAX
    ensures match ScoreFile(policy, grammar, data)
            case Ok(s) => r.Ok? && fresh(r.value) && r.value.View() == s && r.value.NotesCached()
            case Err(e) => r == Err(e)
  {
    hide ScoreHeaderAt, ChunksFrom, ScoreChunks, SortGlobals;
    var budget := new Budget(policy);
    var _ :- CheckInput(policy, |data|);
    var cursor := new Cursor(data, 0);
    var header :- ReadScoreHeader(policy, grammar, cursor);
    var score := new TickScore(header);
    var _ :- ParseScoreTracks(grammar, cursor, header.trackCount, score, budget);
    score.SortGlobals();
    r := Ok(score);
  }
}
