/**
  `ScoreTrackBuilder` as the crate keeps it: fixed tables indexed by channel and
  program or pitch, groups with packed note rows, linked overflow queues, and
  bit sets of active programs. Every method is proved to perform the
  corresponding operation of the track model.
 */
module TrackBuilder {
  import opened Base
  import opened Smf
  import opened Bits
  import opened NoteColumns
  import opened ScoreTypes
  import opened TrackModel
  import opened TrackInvariants
  import opened TrackTotals
  import opened OpenTable
  import opened Scores
  import opened ScoreArena
  import opened ScoreEmission

  datatype BufferedRows = BufferedRows(
    controls: seq<TickControlChange>,
    pitchBends: seq<TickPitchBend>,
    pedals: seq<TickPedal>,
    lyrics: seq<TickText>)

  const NO_BUFFERED_ROWS: BufferedRows := BufferedRows([], [], [], [])

  /** The stored rows are those of a group of the model. */
  predicate RowsMatch(rows: BufferedRows, g: Group) {
    && rows.controls == g.controls && rows.pitchBends == g.pitchBends
    && rows.pedals == g.pedals && rows.lyrics == g.lyrics
  }

  /** The group table and the per-channel bit sets both record the keys that have a group. */
  ghost predicate IndexHolds(table: seq<u16>, masks: seq<nat>, index: map<nat, nat>)
  {
    && |table| == KEYS && |masks| == 16
    && (forall k :: 0 <= k < KEYS ==> table[k] == if k in index then index[k] else NO_GROUP)
    && (forall c, p: nat :: 0 <= c < 16 ==> (Bit(masks[c], p) <==> p < 128 && c * 128 + p in index))
  }

  /** What a new group takes over from its channel. */
  function Taken(m: Model, channel: u4, program: u7): Model
    requires channel < |m.stragglers|
  {
    var straggler := m.stragglers[channel];
    var group := NewGroup(channel, program).(
                   controls := straggler.controls, pitchBends := straggler.pitchBends,
                   pedals := straggler.pedals, lyrics := straggler.lyrics);
    m.(groups := m.groups + [group], index := m.index[Key(channel, program) := |m.groups|],
       stragglers := m.stragglers[channel := NewGroup(0, 0)])
  }

  lemma EnsureGroupTakes(m: Model, channel: u4)
    requires TrackModel.Valid(m) && Target(m, channel).None?
    ensures |m.stragglers| == 16 && TrackModel.EnsureGroup(m, channel) == (Taken(m, channel, m.programs[channel]), |m.groups|)
    ensures TrackModel.Valid(Taken(m, channel, m.programs[channel])) && |m.groups| <= KEYS
  {
    hide Queued, Indexed;
    GroupsBounded(m);
    EnsureGroupValid(m, channel);
  }

  lemma EmptyModelShape()
    ensures var m := EmptyModel();
            && m.groups == [] && m.index == map[] && |m.programs| == |m.pedalStarts| == |m.stragglers| == 16
            && forall c :: 0 <= c < 16 ==> m.programs[c] == 0 && m.pedalStarts[c] == None && RowsMatch(NO_BUFFERED_ROWS, m.stragglers[c])
  {}

  lemma IsEmptyTable(t: Table)
    requires |t.openGroups| == |t.openNoteStates| == |t.overflowQueuesByKey| == KEYS
    requires forall k :: 0 <= k < KEYS ==>
               t.openGroups[k] == NO_GROUP && t.openNoteStates[k] == 0 && t.overflowQueuesByKey[k] == NO_OVERFLOW_QUEUE
    requires t.overflowNotes == [] && t.overflowQueues == [] && t.freeOverflowQueues == []
    ensures t == EmptyTable()
  {
    assert t.openGroups == EmptyTable().openGroups && t.openNoteStates == EmptyTable().openNoteStates;
    assert t.overflowQueuesByKey == EmptyTable().overflowQueuesByKey;
  }

  lemma EmptyIndexHolds(table: seq<u16>, masks: seq<nat>)
    requires |table| == KEYS && forall k :: 0 <= k < KEYS ==> table[k] == NO_GROUP
    requires |masks| == 16 && forall c :: 0 <= c < 16 ==> masks[c] == 0
    ensures IndexHolds(table, masks, map[])
  {
    forall p: nat ensures !Bit(0, p) {
      ZeroHasNoBits(p);
    }
  }

  lemma IndexRecorded(table: seq<u16>, masks: seq<nat>, index: map<nat, nat>, channel: u4, program: u7, g: u16)
    requires IndexHolds(table, masks, index)
    ensures var key := channel as int * 128 + program;
            IndexHolds(table[key := g], masks[channel := Or(masks[channel], ShiftedOne(program))], index[key := g])
  {
    var key := channel as int * 128 + program;
    var masks' := masks[channel := Or(masks[channel], ShiftedOne(program))];
    forall c, p: nat | 0 <= c < 16
      ensures Bit(masks'[c], p) <==> p < 128 && c * 128 + p in index[key := g]
    {
      BitOr(masks[channel], ShiftedOne(program), p);
      BitShiftedOne(program, p);
    }
  }

  class ScoreGroupBuilder {
    const channel: u4
    const program: u7
    const notes: NoteColumnsBuilder
    var rows: BufferedRows

    constructor (channel: u4, program: u7, rows: BufferedRows)
      ensures notes.Valid() && fresh(notes)
      ensures View() == NewGroup(channel, program).(controls := rows.controls, pitchBends := rows.pitchBends,
                                                    pedals := rows.pedals, lyrics := rows.lyrics)
    {
      this.channel, this.program, this.rows := channel, program, rows;
      notes := new NoteColumnsBuilder();
    }

    ghost function View(): (g: Group)
      requires notes.Valid()
      reads this, notes
    {
      Group(channel, program, notes.View(), rows.controls, rows.pitchBends, rows.pedals, rows.lyrics)
    }

    predicate IsEmpty()
      requires notes.Valid()
      reads this, notes
      ensures IsEmpty() == View().IsEmpty()
    {
      notes.Len() == 0 && rows.controls == [] && rows.pitchBends == [] && rows.pedals == [] && rows.lyrics == []
    }

    method AppendRows(score: TickScore, end: nat) returns (r: Result<RowRanges, ParseError>)
      requires notes.Valid()
      modifies score`controls, score`pitchBends, score`pedals, score`lyrics
      ensures r == RangesOf(old(|score.controls|), old(|score.pitchBends|), old(|score.pedals|), old(|score.lyrics|), View(), end)
      ensures r.Ok? ==> score.controls == old(score.controls) + rows.controls
      ensures r.Ok? ==> score.pitchBends == old(score.pitchBends) + rows.pitchBends
      ensures r.Ok? ==> score.pedals == old(score.pedals) + rows.pedals
      ensures r.Ok? ==> score.lyrics == old(score.lyrics) + rows.lyrics
    {
      hide AppendedRange;
      var controls :- AppendColumn(score.controls, rows.controls, end);
      var pitchBends :- AppendColumn(score.pitchBends, rows.pitchBends, end);
      var pedals :- AppendColumn(score.pedals, rows.pedals, end);
      var lyrics :- AppendColumn(score.lyrics, rows.lyrics, end);
      score.controls, score.pitchBends := controls.0, pitchBends.0;
      score.pedals, score.lyrics := pedals.0, lyrics.0;
      r := Ok(RowRanges(controls.1, pitchBends.1, pedals.1, lyrics.1));
    }

    /** What emission returns once the ranges of its parts are known. */
    static lemma EmitGroupParts(s: Score, g: Group, sourceTrack: nat, name: TextRange, end: nat)
      ensures var segment := SegmentOf(g.columns);
              var notes, rows := AppendedRange(s.noteCount, |segment.notes|, end),
                                 RangesOf(|s.controls|, |s.pitchBends|, |s.pedals|, |s.lyrics|, g, end);
              var r := EmitGroup(s, g, sourceTrack, name, end);
              && (notes.Err? ==> r == Err(notes.error))
              && (notes.Ok? && rows.Err? ==> r == Err(rows.error))
              && (notes.Ok? && rows.Ok? ==>
                   && r.Ok?
                   && r.value == s.(segments := s.segments + [segment], noteCount := r.value.noteCount,
                                    controls := s.controls + g.controls, pitchBends := s.pitchBends + g.pitchBends,
                                    pedals := s.pedals + g.pedals, lyrics := s.lyrics + g.lyrics,
                                    tracks := s.tracks + [TickTrack(sourceTrack, g.channel, g.program, g.channel == 9, name,
                                                                    notes.value, rows.value.controls, rows.value.pitchBends,
                                                                    rows.value.pedals, rows.value.lyrics)])
                   && r.value.noteCount as int == s.noteCount + |segment.notes|)
    {
      hide SegmentOf;
    }

    /** Appends the group to the score: its notes, then its other columns, then its track row. */
    method Emit(sourceTrack: nat, name: TextRange, score: TickScore, end: nat) returns (r: Result<(), ParseError>)
      requires notes.Valid()
      modifies score
      ensures score.notes == old(score.notes)
      ensures match EmitGroup(old(score.View()), View(), sourceTrack, name, end)
              case Ok(s) => r == Ok(()) && score.View() == s
              case Err(e) => r == Err(e)
    {
      hide SegmentOf, AppendedRange, RangesOf, NoteColumnsBuilder.Valid, NoteColumnsBuilder.View, SegmentViews, EmitGroup;
      EmitGroupParts(score.View(), View(), sourceTrack, name, end);
      var segment := notes.IntoSegment();
      var pushed :- score.PushNoteSegment(segment, end);
      var ranges :- AppendRows(score, end);
      score.tracks := score.tracks + [TickTrack(sourceTrack, channel, program, channel == 9, name, pushed,
                                                ranges.controls, ranges.pitchBends, ranges.pedals, ranges.lyrics)];
      r := Ok(());
    }
  }

  // ----- The lowest-set-bit loop

  /** The set bits are the programs from `low` on that have a group on the channel. */
  ghost predicate ProgramsFrom(programs: nat, low: nat, channel: nat, index: map<nat, nat>) {
    forall p: nat :: Bit(programs, p) <==> low <= p < 128 && channel * 128 + p in index
  }

  lemma AllPrograms(table: seq<u16>, masks: seq<nat>, index: map<nat, nat>, channel: nat)
    requires IndexHolds(table, masks, index) && channel < 16
    ensures ProgramsFrom(masks[channel], 0, channel, index)
  {}

  lemma NextProgram(programs: nat, low: nat, channel: nat, index: map<nat, nat>)
    requires ProgramsFrom(programs, low, channel, index) && programs > 0
    ensures var program := TrailingZeros(programs);
            && low <= program < 128 && channel * 128 + program in index
            && (forall k :: channel * 128 + low <= k < channel * 128 + program ==> k !in index)
            && ProgramsFrom(And(programs, programs - 1), program + 1, channel, index)
            && And(programs, programs - 1) < programs
  {
    hide Bit, And, TrailingZeros;
    var program := TrailingZeros(programs);
    LowestBit(programs, 0);
    forall k | channel * 128 + low <= k < channel * 128 + program ensures k !in index {
      LowestBit(programs, k - channel * 128);
    }
    ClearLowestBit(programs, 0);
    var rest := And(programs, programs - 1);
    forall p: nat ensures Bit(rest, p) <==> program + 1 <= p < 128 && channel * 128 + p in index {
      ClearLowestBit(programs, p);
      LowestBit(programs, p);
    }
  }

  lemma NoPrograms(low: nat, channel: nat, index: map<nat, nat>)
    requires low <= 128 && ProgramsFrom(0, low, channel, index)
    ensures forall k :: channel * 128 + low <= k < channel * 128 + 128 ==> k !in index
  {
    forall k | channel * 128 + low <= k < channel * 128 + 128 ensures k !in index {
      ZeroHasNoBits(k - channel * 128);
    }
  }

  class ScoreTrackBuilder {
    const programs: array<u7>
    const groupsByKey: array<u16>
    var groups: seq<ScoreGroupBuilder>
    const activePrograms: array<nat>
    const stragglers: array<BufferedRows>
    const openGroups: array<u16>
    const openNoteStates: array<u64>
    const overflowQueuesByKey: array<u16>
    var overflowNotes: seq<OverflowNote>
    var overflowQueues: seq<OverflowQueue>
    var freeOverflowQueues: seq<u16>
    const pedalStarts: array<Option<u64>>

    ghost var model: Model
    ghost var links: Links
    ghost var noteStarts: nat

    // ----- What the fields represent

    /** The tables are distinct arrays of the declared lengths. */
    ghost predicate Wired() {
      && programs.Length == stragglers.Length == activePrograms.Length == pedalStarts.Length == 16
      && groupsByKey.Length == openGroups.Length == openNoteStates.Length == overflowQueuesByKey.Length == KEYS
      && groupsByKey != openGroups && groupsByKey != overflowQueuesByKey && openGroups != overflowQueuesByKey
    }

    ghost predicate GroupsMatch()
      reads this, groups, set g | g in groups :: g.notes
    {
      && |groups| == |model.groups|
      && (forall g :: 0 <= g < |groups| ==> groups[g].notes.Valid() && groups[g].View() == model.groups[g])
      && (forall g, h :: 0 <= g < h < |groups| ==> groups[g] != groups[h] && groups[g].notes != groups[h].notes)
    }

    ghost predicate KeysMatch()
      reads this, groupsByKey, activePrograms
      requires Wired()
    {
      IndexHolds(groupsByKey[..], activePrograms[..], model.index)
    }

    ghost predicate ChannelsMatch()
      reads this, programs, stragglers, pedalStarts
      requires Wired()
    {
      && programs[..] == model.programs && pedalStarts[..] == model.pedalStarts
      && |model.stragglers| == 16
      && forall c :: 0 <= c < 16 ==>
           RowsMatch(stragglers[c], model.stragglers[c])
    }

    ghost function Pairing(): Table
      reads this, openGroups, openNoteStates, overflowQueuesByKey
    {
      Table(openGroups[..], openNoteStates[..], overflowQueuesByKey[..], overflowNotes, overflowQueues, freeOverflowQueues)
    }

    /** No column or arena holds more entries than notes were started. */
    ghost predicate CountsMatch()
      reads this
    {
      && |overflowNotes| <= noteStarts <= U32_MAX
      && forall g :: 0 <= g < |model.groups| ==> |model.groups[g].columns.notes| <= noteStarts
    }

    ghost predicate Represents()
      reads this, programs, groupsByKey, activePrograms, stragglers, openGroups, openNoteStates, overflowQueuesByKey,
            pedalStarts, groups, set g | g in groups :: g.notes
    {
      Wired() && GroupsMatch() && KeysMatch() && ChannelsMatch() && CountsMatch()
      && Linked(Pairing(), links, model.open)
    }

    ghost predicate Valid()
      reads this, programs, groupsByKey, activePrograms, stragglers, openGroups, openNoteStates, overflowQueuesByKey,
            pedalStarts, groups, set g | g in groups :: g.notes
      ensures Valid() ==> TrackModel.Valid(model)
    {
      Represents() && TrackModel.Valid(model)
    }

    /** Everything the builder writes to. */
    ghost function Repr(): set<object>
      reads this
    {
      {this, programs, groupsByKey, activePrograms, stragglers, openGroups, openNoteStates, overflowQueuesByKey, pedalStarts}
      + (set g | g in groups) + (set g | g in groups :: g.notes)
    }

    lemma Footprint()
      ensures forall g :: g in groups ==> g in Repr() && g.notes in Repr()
    {}

    twostate lemma FreshGroups()
      requires old(groups) <= groups
      requires forall i :: |old(groups)| <= i < |groups| ==> fresh(groups[i]) && fresh(groups[i].notes)
      ensures fresh(Repr() - old(Repr()))
    {
      forall g | g in groups && g !in old(groups) ensures fresh(g) && fresh(g.notes) {
        var i :| 0 <= i < |groups| && groups[i] == g;
      }
    }

    /** A builder with cleared tables represents the empty model. */
    lemma ClearedIsEmpty()
      requires Wired() && groups == [] && model == EmptyModel() && links == EmptyLinks() && noteStarts == 0
      requires overflowNotes == [] && overflowQueues == [] && freeOverflowQueues == []
      requires forall c :: 0 <= c < 16 ==>
                 programs[c] == 0 && activePrograms[c] == 0 && stragglers[c] == NO_BUFFERED_ROWS && pedalStarts[c] == None
      requires forall k :: 0 <= k < KEYS ==>
                 && groupsByKey[k] == NO_GROUP && openGroups[k] == NO_GROUP
                 && openNoteStates[k] == 0 && overflowQueuesByKey[k] == NO_OVERFLOW_QUEUE
      ensures Valid()
    {
      hide Linked, TrackModel.Valid, IndexHolds, EmptyModel, EmptyTable, EmptyLinks, RowsMatch;
      EmptyModelValid();
      EmptyModelShape();
      EmptyTableLinked();
      IsEmptyTable(Pairing());
      EmptyIndexHolds(groupsByKey[..], activePrograms[..]);
    }

    constructor ()
      ensures Valid() && model == EmptyModel() && noteStarts == 0 && groups == [] && fresh(Repr())
    {
      hide Represents, TrackModel.Valid, EmptyModel, EmptyLinks;
      programs := new u7[16](_ => 0);
      groupsByKey := new u16[KEYS](_ => NO_GROUP);
      groups := [];
      activePrograms := new nat[16](_ => 0);
      stragglers := new BufferedRows[16](_ => NO_BUFFERED_ROWS);
      openGroups := new u16[KEYS](_ => NO_GROUP);
      openNoteStates := new u64[KEYS](_ => 0);
      overflowQueuesByKey := new u16[KEYS](_ => NO_OVERFLOW_QUEUE);
      overflowNotes, overflowQueues, freeOverflowQueues := [], [], [];
      pedalStarts := new Option<u64>[16](_ => None);
      model, links, noteStarts := EmptyModel(), EmptyLinks(), 0;
      new;
      ClearedIsEmpty();
    }

    function KeyOf(channel: u4, low: u7): (k: nat)
      ensures k == Key(channel, low)
    {
      channel as int * 128 + low
    }

    method SetProgram(channel: u4, program: u7)
      requires Valid()
      modifies this`model, programs
      ensures Valid() && model == TrackModel.SetProgram(old(model), channel, program)
    {
      hide Linked, Queued, Indexed, IndexHolds, RowsMatch;
      ghost var before := model;
      programs[channel] := program;
      model := TrackModel.SetProgram(model, channel, program);
      ValidWithout(before, model);
    }

    // ----- Rows of the current group, or of the channel's stragglers

    /** The index of the channel's current group, or the sentinel. */
    function CurrentGroup(channel: u4): (g: u16)
      requires Wired()
      requires programs[channel] < 128
      reads programs, groupsByKey
    {
      groupsByKey[KeyOf(channel, programs[channel])]
    }

    lemma CurrentGroupIsTarget(channel: u4)
      requires Valid()
      ensures match Target(model, channel)
              case Some(g) =>
                && CurrentGroup(channel) == g < |groups| <= KEYS && groups[g].notes.Valid()
                && groups[g].View() == Current(model, channel)
              case None =>
                CurrentGroup(channel) == NO_GROUP && RowsMatch(stragglers[channel], Current(model, channel))
      ensures programs[channel] < 128 && RowsMatch(CurrentRows(channel), Current(model, channel))
    {
      hide Linked, Queued;
      GroupsBounded(model);
      assert programs[channel] == programs[..][channel];
    }

    /** The rows that `group_or_straggler_mut` lends out. */
    function CurrentRows(channel: u4): (rows: BufferedRows)
      requires Wired() && programs[channel] < 128
      requires CurrentGroup(channel) == NO_GROUP || CurrentGroup(channel) < |groups|
      reads this`groups, programs, groupsByKey, stragglers, groups
    {
      if CurrentGroup(channel) == NO_GROUP then stragglers[channel] else groups[CurrentGroup(channel)].rows
    }

    method SetGroupRows(g: u16, rows: BufferedRows)
      requires Represents() && g < |groups|
      modifies this`model, groups[g]
      ensures Represents()
      ensures model == WithGroup(old(model), g, old(model).groups[g].(
                         controls := rows.controls, pitchBends := rows.pitchBends, pedals := rows.pedals, lyrics := rows.lyrics))
    {
      hide Linked, IndexHolds, RowsMatch;
      groups[g].rows := rows;
      model := WithGroup(model, g, model.groups[g].(
        controls := rows.controls, pitchBends := rows.pitchBends, pedals := rows.pedals, lyrics := rows.lyrics));
      assert groups[g].View() == model.groups[g];
    }

    method SetStraggler(channel: u4, rows: BufferedRows)
      requires Represents()
      modifies this`model, stragglers
      ensures Represents()
      ensures model == old(model).(stragglers := old(model).stragglers[channel := old(model).stragglers[channel].(
                         controls := rows.controls, pitchBends := rows.pitchBends, pedals := rows.pedals, lyrics := rows.lyrics)])
    {
      hide Linked, IndexHolds;
      stragglers[channel] := rows;
      model := model.(stragglers := model.stragglers[channel := model.stragglers[channel].(
        controls := rows.controls, pitchBends := rows.pitchBends, pedals := rows.pedals, lyrics := rows.lyrics)]);
    }

    method SetCurrentRows(channel: u4, rows: BufferedRows)
      requires Valid() && rows.lyrics == Current(model, channel).lyrics
      modifies this`model, stragglers, groups
      ensures Valid()
      ensures model == WithCurrent(old(model), channel, Current(old(model), channel).(
                         controls := rows.controls, pitchBends := rows.pitchBends, pedals := rows.pedals))
    {
      hide Linked, Queued, Indexed, IndexHolds, GroupsMatch, KeysMatch, ChannelsMatch, CountsMatch;
      CurrentGroupIsTarget(channel);
      WithCurrentValid(model, channel, Current(model, channel).(
        controls := rows.controls, pitchBends := rows.pitchBends, pedals := rows.pedals));
      var g := CurrentGroup(channel);
      if g == NO_GROUP {
        SetStraggler(channel, rows);
      } else {
        SetGroupRows(g, rows);
      }
    }

    method AddControl(channel: u4, time: u64, number: u7, level: u7)
      requires Valid()
      modifies this`model, stragglers, groups
      ensures Valid() && model == TrackModel.AddControl(old(model), channel, time, number, level)
    {
      hide Linked, Queued, Indexed, WithCurrent, GroupsMatch, KeysMatch, ChannelsMatch, CountsMatch;
      CurrentGroupIsTarget(channel);
      var rows := CurrentRows(channel);
      SetCurrentRows(channel, rows.(controls := rows.controls + [Timed(time, ControlChange(number, level))]));
    }

    method AddPitchBend(channel: u4, time: u64, value: i16)
      requires Valid()
      modifies this`model, stragglers, groups
      ensures Valid() && model == TrackModel.AddPitchBend(old(model), channel, time, value)
    {
      hide Linked, Queued, Indexed, WithCurrent, GroupsMatch, KeysMatch, ChannelsMatch, CountsMatch;
      CurrentGroupIsTarget(channel);
      var rows := CurrentRows(channel);
      SetCurrentRows(channel, rows.(pitchBends := rows.pitchBends + [Timed(time, value)]));
    }

    method HandlePedal(channel: u4, time: u64, level: u7) returns (r: Result<(), ParseError>)
      requires Valid()
      modifies this`model, stragglers, groups, pedalStarts
      ensures Valid()
      ensures match TrackModel.HandlePedal(old(model), channel, time, level)
              case Ok(m) => r == Ok(()) && model == m
              case Err(e) => r == Err(e)
    {
      hide Linked, Queued, Indexed, WithCurrent, GroupsMatch, KeysMatch, CountsMatch;
      if level >= 64 {
        if pedalStarts[channel].None? {
          SetPedalStart(channel, Some(time));
        }
        return Ok(());
      }
      var start := pedalStarts[channel];
      if start.None? {
        return Ok(());
      }
      SetPedalStart(channel, None);
      if time < start.value {
        return Err(At(0, TickOverflow));
      }
      CurrentGroupIsTarget(channel);
      var rows := CurrentRows(channel);
      SetCurrentRows(channel, rows.(pedals := rows.pedals + [Timed(start.value, time - start.value)]));
      r := Ok(());
    }

    method SetPedalStart(channel: u4, start: Option<u64>)
      requires Valid()
      modifies this`model, pedalStarts
      ensures Valid() && model == old(model).(pedalStarts := old(model).pedalStarts[channel := start])
    {
      hide Linked, Queued, Indexed;
      ghost var before := model;
      pedalStarts[channel] := start;
      model := model.(pedalStarts := model.pedalStarts[channel := start]);
      ValidWithout(before, model);
    }

    // ----- Groups

    /** The channel's current group, created from its stragglers if need be. */
    method EnsureGroup(channel: u4) returns (g: u16)
      requires Valid()
      modifies this`model, this`groups, groupsByKey, activePrograms, stragglers
      ensures Valid() && model == TrackModel.EnsureGroup(old(model), channel).0
      ensures g == TrackModel.EnsureGroup(old(model), channel).1 && g < |groups|
      ensures old(groups) <= groups && |groups| <= |old(groups)| + 1
      ensures forall i :: |old(groups)| <= i < |groups| ==> fresh(groups[i]) && fresh(groups[i].notes)
    {
      hide Linked, Queued, Indexed, GroupsMatch;
      CurrentGroupIsTarget(channel);
      g := CurrentGroup(channel);
      if g == NO_GROUP {
        g := CreateGroup(channel);
      }
    }

    method CreateGroup(channel: u4) returns (g: u16)
      requires Valid() && Target(model, channel).None?
      modifies this`model, this`groups, groupsByKey, activePrograms, stragglers
      ensures Valid() && model == TrackModel.EnsureGroup(old(model), channel).0
      ensures g == TrackModel.EnsureGroup(old(model), channel).1 && g < |groups|
      ensures |groups| == |old(groups)| + 1 && old(groups) <= groups
      ensures fresh(groups[g]) && fresh(groups[g].notes) && g == |old(groups)|
    {
      hide Linked, Queued, Indexed, GroupsMatch, KeysMatch, CountsMatch, Taken, TrackModel.EnsureGroup;
      GroupsCount();
      EnsureGroupTakes(model, channel);
      var program := programs[channel];
      assert program == model.programs[channel] by {
        assert programs[channel] == programs[..][channel];
      }
      g := |groups|;
      AppendGroup(channel, program);
    }

    lemma GroupsCount()
      requires GroupsMatch()
      ensures |groups| == |model.groups|
    {}

    /** Moves a channel's stragglers into a new group and records it in the table and the bit set. */
    method AppendGroup(channel: u4, program: u7)
      requires Represents() && |groups| <= U16_MAX
      modifies this`model, this`groups, groupsByKey, activePrograms, stragglers
      ensures Represents() && |groups| == |old(groups)| + 1 && old(groups) <= groups
      ensures fresh(groups[|old(groups)|]) && fresh(groups[|old(groups)|].notes)
      ensures |old(model).stragglers| == 16 && model == Taken(old(model), channel, program)
    {
      hide Linked, IndexHolds, GroupsMatch, RowsMatch;
      GroupsCount();
      var key := KeyOf(channel, program);
      var g: u16 := |groups|;
      IndexRecorded(groupsByKey[..], activePrograms[..], model.index, channel, program, g);
      PushGroup(channel, program);
      groupsByKey[key] := g;
      activePrograms[channel] := Or(activePrograms[channel], ShiftedOne(program));
      assert groupsByKey[..] == old(groupsByKey[..])[key := g];
      assert activePrograms[..] == old(activePrograms[..])[channel := activePrograms[channel]];
      assert Pairing() == old(Pairing());
    }

    /** The new group itself: it takes the channel's stragglers. */
    method PushGroup(channel: u4, program: u7)
      requires Wired() && GroupsMatch() && ChannelsMatch() && CountsMatch()
      modifies this`model, this`groups, stragglers
      ensures GroupsMatch() && ChannelsMatch() && CountsMatch()
      ensures |groups| == |old(groups)| + 1 && old(groups) <= groups
      ensures fresh(groups[|old(groups)|]) && fresh(groups[|old(groups)|].notes)
      ensures |old(model).stragglers| == 16 && model == Taken(old(model), channel, program)
    {
      var group := new ScoreGroupBuilder(channel, program, stragglers[channel]);
      stragglers[channel] := NO_BUFFERED_ROWS;
      groups := groups + [group];
      model := Taken(model, channel, program);
      assert group.View() == model.groups[|old(groups)|];
    }

    // ----- Notes

    /** Appends an open note to a group; the column never reaches the `u32` bound. */
    method StartNote(g: u16, time: u64, pitch: u7, velocity: u7, offset: nat) returns (note: u32)
      requires Represents() && g < |groups| && noteStarts < U32_MAX
      modifies this`model, this`noteStarts, groups[g].notes
      ensures Represents() && noteStarts == old(noteStarts) + 1 && note == |old(model).groups[g].columns.notes|
      ensures model == WithGroup(old(model), g, old(model).groups[g].(
                         columns := Pushed(old(model).groups[g].columns, time, pitch, velocity)))
    {
      hide Linked, IndexHolds, RowsMatch, NoteColumnsBuilder.Valid, NoteColumnsBuilder.View;
      var group := groups[g];
      assert group.View() == model.groups[g];
      var pushed := group.notes.Push(time, pitch, velocity, offset);
      note := pushed.value;
      model := WithGroup(model, g, model.groups[g].(columns := Pushed(model.groups[g].columns, time, pitch, velocity)));
      noteStarts := noteStarts + 1;
      assert group.View() == model.groups[g];
      assert GroupsMatch();
      assert Pairing() == old(Pairing());
    }

    /** The overflow queue of a key whose primary slot is taken; there are at most 2048, so the index fits. */
    method EnsureOverflowQueue(k: nat) returns (q: u16)
      requires Wired() && Linked(Pairing(), links, model.open) && k < KEYS && model.open[k] != []
      modifies this`links, this`overflowQueues, this`freeOverflowQueues, overflowQueuesByKey
      ensures Linked(Pairing(), links, model.open)
      ensures links.chains == old(links.chains) && links.owners == old(links.owners)
      ensures overflowQueuesByKey[k] == q != NO_OVERFLOW_QUEUE
    {
      hide KeyHolds, FreeListed;
      ghost var before := Pairing();
      ghost var after := EnsureQueueLinked(before, links, model.open, k);
      q := overflowQueuesByKey[k];
      if q == NO_OVERFLOW_QUEUE {
        if |freeOverflowQueues| > 0 {
          q := freeOverflowQueues[|freeOverflowQueues| - 1];
          freeOverflowQueues := freeOverflowQueues[..|freeOverflowQueues| - 1];
        } else {
          QueuesBounded(before, links, model.open, k);
          q := |overflowQueues|;
          overflowQueues := overflowQueues + [OverflowQueue(NO_OPEN_NOTE, NO_OPEN_NOTE)];
        }
        overflowQueuesByKey[k] := q;
      }
      links := after;
      assert Pairing() == EnsureQueue(before, k).0;
    }

    /** Queues a started note: in the free primary slot of its key, or linked behind the notes already open. */
    method QueueNote(k: nat, g: u16, note: u32, time: u64)
      requires Represents() && k < KEYS && g < KEYS && |overflowNotes| < noteStarts
      modifies this`model, this`links, this`overflowNotes, this`overflowQueues, this`freeOverflowQueues
      modifies openGroups, openNoteStates, overflowQueuesByKey
      ensures Represents()
      ensures model == old(model).(open := old(model).open[k := old(model).open[k] + [NoteRef(g, note, time)]])
    {
      hide KeyHolds, FreeListed, Sized, IndexHolds, RowsMatch;
      ghost var r := NoteRef(g, note, time);
      ghost var before, open := Pairing(), model.open;
      PrimaryOf(before, links, open, k);
      if openGroups[k] == NO_GROUP {
        SetPrimaryLinked(before, links, open, k, r);
        openGroups[k] := g;
        openNoteStates[k] := PackOpenNoteState(note, time);
        assert Pairing() == SetPrimary(before, k, g, note, time);
        assert open[k] + [r] == [r];
      } else {
        LinkOverflow(k, g, note, r);
      }
      model := model.(open := open[k := open[k] + [r]]);
    }

    method LinkOverflow(k: nat, g: u16, note: u32, ghost r: NoteRef)
      requires Wired() && Linked(Pairing(), links, model.open) && r.group == g && r.note == note
      requires k < KEYS && g < KEYS && |overflowNotes| < U32_MAX && model.open[k] != []
      modifies this`links, this`overflowNotes, this`overflowQueues, this`freeOverflowQueues
      modifies overflowQueuesByKey
      ensures Linked(Pairing(), links, model.open[k := model.open[k] + [r]])
      ensures |overflowNotes| == |old(overflowNotes)| + 1
    {
      hide KeyHolds, FreeListed, Loose;
      ghost var before, l, open := Pairing(), links, model.open;
      var index: u32 := |overflowNotes|;
      PushNodeLinked(before, l, open, k, g, note);
      overflowNotes := overflowNotes + [OverflowNote(g, note, NO_OPEN_NOTE)];
      links := links.(owners := links.owners + [k]);
      assert Pairing() == PushNode(before, g, note);
      var q := EnsureOverflowQueue(k);
      ghost var queued := Pairing();
      PushNodeLoose(before, l, open, k, r, queued, links);
      LinkNodeLinked(queued, links, open, k, index, r);
      var previousTail := overflowQueues[q].tail;
      if previousTail == NO_OPEN_NOTE {
        overflowQueues := overflowQueues[q := OverflowQueue(index, index)];
      } else {
        overflowNotes := overflowNotes[previousTail := overflowNotes[previousTail].(next := index)];
        overflowQueues := overflowQueues[q := overflowQueues[q].(tail := index)];
      }
      links := links.(chains := links.chains[k := links.chains[k] + [index]]);
      assert Pairing() == LinkNode(queued, q, index);
    }

    /** Starts a note in the channel's group and queues it behind the open notes of its channel and pitch. */
    method AddNote(channel: u4, pitch: u7, velocity: u7, time: u64, offset: nat)
      requires Valid() && noteStarts < U32_MAX
      modifies this`model, this`links, this`noteStarts, this`groups
      modifies this`overflowNotes, this`overflowQueues, this`freeOverflowQueues
      modifies groupsByKey, activePrograms, stragglers, openGroups, openNoteStates, overflowQueuesByKey
      modifies set h | h in groups :: h.notes
      ensures Valid() && model == TrackModel.AddNote(old(model), channel, pitch, velocity, time)
      ensures noteStarts == old(noteStarts) + 1
      ensures fresh(Repr() - old(Repr()))
    {
      hide Linked, Queued, Indexed, IndexHolds, RowsMatch, KeysMatch, ChannelsMatch;
      AddNoteValid(model, channel, pitch, velocity, time);
      var g := EnsureGroup(channel);
      GroupsBounded(model);
      var note := StartNote(g, time, pitch, velocity, offset);
      QueueNote(KeyOf(channel, pitch), g, note, time);
      FreshGroups();
    }

    method CompleteNote(g: u16, note: u32, duration: u64)
      requires Represents() && g < |groups|
      requires note < |model.groups[g].columns.notes| && model.groups[g].columns.notes[note].duration.None?
      modifies this`model, groups[g].notes
      ensures Represents()
      ensures model == WithGroup(old(model), g, old(model).groups[g].(
                         columns := Completed(old(model).groups[g].columns, note, duration)))
    {
      hide Linked, IndexHolds, RowsMatch, NoteColumnsBuilder.Valid, NoteColumnsBuilder.View;
      var group := groups[g];
      assert group.View() == model.groups[g];
      group.notes.Complete(note, duration);
      model := WithGroup(model, g, model.groups[g].(columns := Completed(model.groups[g].columns, note, duration)));
      assert group.View() == model.groups[g];
      assert GroupsMatch();
      assert Pairing() == old(Pairing());
    }

    /** Moves the next open note of a key into its primary slot, or frees the key and its queue. */
    method AdvanceKey(k: nat)
      requires Represents() && k < KEYS && model.open[k] != []
      requires forall r :: r in model.open[k] ==> InRange(model, r) && NoteOf(model, r).time == r.time
      modifies this`model, this`links, this`overflowQueues, this`freeOverflowQueues
      modifies openGroups, openNoteStates, overflowQueuesByKey
      ensures Represents()
      ensures model == old(model).(open := old(model).open[k := old(model).open[k][1..]])
    {
      hide KeyHolds, FreeListed, Sized, IndexHolds, RowsMatch;
      ghost var open := model.open;
      AdvanceSlot(k);
      model := model.(open := open[k := open[k][1..]]);
    }

    method AdvanceSlot(k: nat)
      requires Wired() && GroupsMatch() && Linked(Pairing(), links, model.open) && k < KEYS && model.open[k] != []
      requires forall r :: r in model.open[k] ==> InRange(model, r) && NoteOf(model, r).time == r.time
      modifies this`links, this`overflowQueues, this`freeOverflowQueues
      modifies openGroups, openNoteStates, overflowQueuesByKey
      ensures Linked(Pairing(), links, model.open[k := model.open[k][1..]])
    {
      hide KeyHolds, FreeListed;
      ghost var before, open := Pairing(), model.open;
      SecondOf(before, links, open, k);
      var q := overflowQueuesByKey[k];
      ghost var nextTime: u64 := if |open[k]| > 1 then open[k][1].time else 0;
      links := AdvanceLinked(before, links, open, k, nextTime);
      if q == NO_OVERFLOW_QUEUE {
        openGroups[k], openNoteStates[k] := NO_GROUP, 0;
      } else if overflowQueues[q].head == NO_OPEN_NOTE {
        openGroups[k], openNoteStates[k], overflowQueuesByKey[k] := NO_GROUP, 0, NO_OVERFLOW_QUEUE;
        freeOverflowQueues := freeOverflowQueues + [q];
      } else {
        var next := overflowNotes[overflowQueues[q].head];
        assert open[k][1] in open[k] && groups[next.group].View() == model.groups[next.group];
        var start := groups[next.group].notes.Start(next.note);
        openGroups[k], openNoteStates[k] := next.group, PackOpenNoteState(next.note, start);
        overflowQueues := overflowQueues[q := OverflowQueue(
          next.next, if next.next == NO_OPEN_NOTE then NO_OPEN_NOTE else overflowQueues[q].tail)];
      }
      assert Pairing() == Dequeued(before, k, nextTime);
    }

    /** Completing a note moves no open note of its key and keeps their start times. */
    static lemma CompletedKeepsQueue(m: Model, k: nat, g: nat, note: nat, duration: u64)
      requires TrackModel.Valid(m) && k < KEYS && g < |m.groups| && note < |m.groups[g].columns.notes|
      ensures var after := WithGroup(m, g, m.groups[g].(columns := Completed(m.groups[g].columns, note, duration)));
              forall r :: r in m.open[k] ==> InRange(after, r) && NoteOf(after, r).time == r.time
    {
      forall r | r in m.open[k] ensures OpenAt(m, k, r) {
        assert Queued(m, k, m.open[k]);
      }
    }

    /** Closes the oldest open note of a channel and pitch; does nothing when there is none. */
    method EndNote(channel: u4, pitch: u7, time: u64)
      requires Valid()
      modifies this`model, this`links, this`overflowQueues, this`freeOverflowQueues
      modifies openGroups, openNoteStates, overflowQueuesByKey
      modifies set h | h in groups :: h.notes
      ensures Valid() && model == TrackModel.EndNote(old(model), channel, pitch, time)
    {
      hide Linked, Indexed, IndexHolds, RowsMatch, KeysMatch, ChannelsMatch;
      var k := KeyOf(channel, pitch);
      EndNoteValid(model, channel, pitch, time);
      PrimaryOf(Pairing(), links, model.open, k);
      var g := openGroups[k];
      if g == NO_GROUP {
        return;
      }
      ghost var r := model.open[k][0];
      assert Queued(model, k, model.open[k]) && OpenAt(model, k, r);
      assert groups[g].View() == model.groups[g];
      var state := openNoteStates[k];
      var note := OpenNoteIndex(state);
      var packed := OpenNoteStart(state);
      var start := if packed.Some? then packed.value else groups[g].notes.Start(note);
      CompletedKeepsQueue(model, k, g, note, WrappingSub(time, start));
      CompleteNote(g, note, WrappingSub(time, start));
      AdvanceKey(k);
    }

    /** Lyrics go to the group of channel zero's current program. */
    method AddLyric(time: u64, text: TextRange)
      requires Valid()
      modifies this`model, this`groups, groupsByKey, activePrograms, stragglers, groups
      ensures Valid() && model == TrackModel.AddLyric(old(model), time, text)
      ensures fresh(Repr() - old(Repr()))
    {
      hide Linked, Queued, Indexed, IndexHolds, KeysMatch, ChannelsMatch;
      AddLyricValid(model, time, text);
      var g := EnsureGroup(0);
      assert groups[g].View() == model.groups[g];
      var rows := groups[g].rows;
      SetGroupRows(g, rows.(lyrics := rows.lyrics + [Timed(time, text)]));
      FreshGroups();
    }

    // ----- Emission

    /** Visits the set bits of each channel's program set from the lowest up: every group once, in key order. */
    method Finish(sourceTrack: nat, name: TextRange, score: TickScore, end: nat) returns (r: Result<(), ParseError>)
      requires Valid()
      modifies score
      ensures score.notes == old(score.notes)
      ensures match EmitFrom(model, 0, sourceTrack, name, old(score.View()), end)
              case Ok(s) => r == Ok(()) && score.View() == s
              case Err(e) => r == Err(e)
    {
      hide Linked, Queued, Indexed, EmitFrom, ProgramsFrom, IndexHolds, GroupsMatch, ChannelsMatch, CountsMatch;
      hide Bit, And, TrailingZeros;
      ghost var expected := EmitFrom(model, 0, sourceTrack, name, score.View(), end);
      for channel := 0 to 16
        invariant score.notes == old(score.notes)
        invariant EmitFrom(model, channel * 128, sourceTrack, name, score.View(), end) == expected
      {
        var programs := activePrograms[channel];
        ghost var low: nat := 0;
        AllPrograms(groupsByKey[..], activePrograms[..], model.index, channel);
        while programs != 0
          invariant low <= 128 && ProgramsFrom(programs, low, channel, model.index)
          invariant score.notes == old(score.notes)
          invariant EmitFrom(model, channel * 128 + low, sourceTrack, name, score.View(), end) == expected
          decreases programs
        {
          NextProgram(programs, low, channel, model.index);
          var program := TrailingZeros(programs);
          programs := And(programs, programs - 1);
          var key := channel * 128 + program;
          EmitFromSkips(model, channel * 128 + low, key, sourceTrack, name, score.View(), end);
          low := program + 1;
          var r' := EmitKey(key, sourceTrack, name, score, end);
          if r'.Err? {
            return r';
          }
        }
        NoPrograms(low, channel, model.index);
        EmitFromSkips(model, channel * 128 + low, channel * 128 + 128, sourceTrack, name, score.View(), end);
      }
      EmitFromLast(model, sourceTrack, name, score.View(), end);
      r := Ok(());
    }

    method EmitKey(key: nat, sourceTrack: nat, name: TextRange, score: TickScore, end: nat)
      returns (r: Result<(), ParseError>)
      requires Valid() && key < KEYS && key in model.index
      modifies score
      ensures score.notes == old(score.notes)
      ensures r.Ok? ==> (EmitFrom(model, key + 1, sourceTrack, name, score.View(), end)
                         == EmitFrom(model, key, sourceTrack, name, old(score.View()), end))
      ensures r.Err? ==> EmitFrom(model, key, sourceTrack, name, old(score.View()), end) == Err(r.error)
    {
      hide Linked, Queued, RowsMatch, EmitGroup;
      var g := groupsByKey[key];
      assert groupsByKey[..][key] == g;
      assert groups[g].View() == model.groups[g];
      if groups[g].IsEmpty() {
        return Ok(());
      }
      r := groups[g].Emit(sourceTrack, name, score, end);
    }
  }
}
