/**
  What the groups of a track hold after any run: one group per channel and
  program that was struck or sung, its notes and lyrics exactly those delivered
  to it, and every other row kept exactly once.
 */
module TrackGroups {
  import opened Base
  import opened Smf
  import opened NoteColumns
  import opened ScoreTypes
  import opened TrackModel
  import opened TrackInvariants
  import opened TrackRuns

  // ----- Notes and lyrics

  datatype Struck = Struck(time: u64, pitch: u8, velocity: u8)

  function StruckOf(notes: seq<OpenNote>): (s: seq<Struck>)
    ensures |s| == |notes|
  {
    seq(|notes|, i requires 0 <= i < |notes| => Struck(notes[i].time, notes[i].pitch, notes[i].velocity))
  }

  /** The note-ons of a channel while a program was current, in order. */
  function NotesFor(ops: seq<TimedOp>, n: nat, channel: u4, program: u7): seq<Struck>
    requires n <= |ops|
  {
    if n == 0 then []
    else
      NotesFor(ops, n - 1, channel, program)
        + StruckBy(ops[n - 1].op, ops[n - 1].time, ProgramAt(ops, n - 1, channel), channel, program)
  }

  function StruckBy(op: TrackOp, time: u64, current: u7, channel: u4, program: u7): seq<Struck> {
    if op.NoteOn? && op.channel == channel && current == program then [Struck(time, op.pitch, op.velocity)] else []
  }

  /** The lyrics read while a program of channel zero was current, in order. */
  function LyricsFor(ops: seq<TimedOp>, n: nat, channel: u4, program: u7): seq<TickText>
    requires n <= |ops|
  {
    if n == 0 then []
    else
      LyricsFor(ops, n - 1, channel, program)
        + SungBy(ops[n - 1].op, ops[n - 1].time, ProgramAt(ops, n - 1, channel), channel, program)
  }

  function SungBy(op: TrackOp, time: u64, current: u7, channel: u4, program: u7): seq<TickText> {
    if op.Lyric? && channel == 0 && current == program then [Timed(time, op.text)] else []
  }

  /** A group exists exactly for a channel and program with notes or lyrics, and holds just those. */
  ghost predicate Holds(m: Model, channel: u4, program: u7, notes: seq<Struck>, lyrics: seq<TickText>)
    requires Valid(m)
  {
    if Key(channel, program) in m.index then
      var group := m.groups[m.index[Key(channel, program)]];
      && StruckOf(group.columns.notes) == notes && group.lyrics == lyrics
      && (notes != [] || lyrics != [])
    else notes == [] && lyrics == []
  }

  lemma StruckPushed(c: Columns, time: u64, pitch: u8, velocity: u8)
    ensures StruckOf(Pushed(c, time, pitch, velocity).notes) == StruckOf(c.notes) + [Struck(time, pitch, velocity)]
  {}

  lemma StruckCompleted(c: Columns, index: nat, duration: u64)
    requires index < |c.notes|
    ensures StruckOf(Completed(c, index, duration).notes) == StruckOf(c.notes)
  {}

  lemma HoldsNoteOn(m: Model, c: u4, pitch: u7, velocity: u7, time: u64,
                    channel: u4, program: u7, notes: seq<Struck>, lyrics: seq<TickText>)
    requires Valid(m) && Holds(m, channel, program, notes, lyrics)
    ensures var m' := AddNote(m, c, pitch, velocity, time);
            && Valid(m')
            && Holds(m', channel, program,
                     notes + StruckBy(NoteOn(c, pitch, velocity), time, m.programs[channel], channel, program), lyrics)
  {
    EnsureGroupValid(m, c);
    AddNoteValid(m, c, pitch, velocity, time);
    hide Queued;
    var (m1, g) := EnsureGroup(m, c);
    StruckPushed(m1.groups[g].columns, time, pitch, velocity);
    assert StruckOf([]) == [];
  }

  lemma HoldsLyric(m: Model, text: TextRange, time: u64,
                   channel: u4, program: u7, notes: seq<Struck>, lyrics: seq<TickText>)
    requires Valid(m) && Holds(m, channel, program, notes, lyrics)
    ensures var m' := AddLyric(m, time, text);
            && Valid(m')
            && Holds(m', channel, program, notes,
                     lyrics + SungBy(Lyric(text), time, m.programs[channel], channel, program))
  {
    EnsureGroupValid(m, 0);
    AddLyricValid(m, time, text);
    hide Queued;
    assert StruckOf([]) == [];
  }

  lemma HoldsNoteOff(m: Model, c: u4, pitch: u7, time: u64,
                     channel: u4, program: u7, notes: seq<Struck>, lyrics: seq<TickText>)
    requires Valid(m) && Holds(m, channel, program, notes, lyrics)
    ensures var m' := EndNote(m, c, pitch, time); Valid(m') && Holds(m', channel, program, notes, lyrics)
  {
    EndNoteValid(m, c, pitch, time);
    var k := Key(c, pitch);
    if m.open[k] != [] {
      var r := m.open[k][0];
      assert Queued(m, k, m.open[k]) && OpenAt(m, k, r);
      StruckCompleted(m.groups[r.group].columns, r.note, WrappingSub(time, r.time));
    }
  }

  /** Operations that place rows elsewhere leave notes and lyrics alone. */
  lemma HoldsWithCurrent(m: Model, c: u4, group: Group,
                         channel: u4, program: u7, notes: seq<Struck>, lyrics: seq<TickText>)
    requires Valid(m) && Holds(m, channel, program, notes, lyrics)
    requires group.columns == Current(m, c).columns && group.lyrics == Current(m, c).lyrics
    requires group.channel == Current(m, c).channel && group.program == Current(m, c).program
    ensures Valid(WithCurrent(m, c, group)) && Holds(WithCurrent(m, c, group), channel, program, notes, lyrics)
  {
    WithCurrentValid(m, c, group);
  }

  lemma HoldsControl(m: Model, c: u4, time: u64, number: u7, level: u7,
                     channel: u4, program: u7, notes: seq<Struck>, lyrics: seq<TickText>)
    requires Valid(m) && Holds(m, channel, program, notes, lyrics)
    ensures var r := Apply(m, Control(c, number, level), time);
            r.Ok? ==> Valid(r.value) && Holds(r.value, channel, program, notes, lyrics)
  {
    var group := Current(m, c);
    HoldsWithCurrent(m, c, group.(controls := group.controls + [Timed(time, ControlChange(number, level))]),
                     channel, program, notes, lyrics);
    var m1 := AddControl(m, c, time, number, level);
    if number == 64 {
      HandlePedalValid(m1, c, time, level);
      if level < 64 && m1.pedalStarts[c].Some? && time >= m1.pedalStarts[c].value {
        var start := m1.pedalStarts[c].value;
        var released := m1.(pedalStarts := m1.pedalStarts[c := None]);
        ValidWithout(m1, released);
        var rows := Current(m1, c);
        HoldsWithCurrent(released, c, rows.(pedals := rows.pedals + [Timed(start, time - start)]),
                         channel, program, notes, lyrics);
      }
    }
  }

  lemma HoldsStep(m: Model, op: TrackOp, time: u64,
                  channel: u4, program: u7, notes: seq<Struck>, lyrics: seq<TickText>)
    requires Valid(m) && Holds(m, channel, program, notes, lyrics) && Apply(m, op, time).Ok?
    ensures var m' := Apply(m, op, time).value;
            && Valid(m')
            && Holds(m', channel, program,
                     notes + StruckBy(op, time, m.programs[channel], channel, program),
                     lyrics + SungBy(op, time, m.programs[channel], channel, program))
  {
    hide Valid, Holds, AddNote, EndNote, AddLyric, AddControl, AddPitchBend, HandlePedal;
    ApplyValid(m, op, time);
    HoldsNothingMore(notes, lyrics);
    match op {
      case NoteOn(c, pitch, velocity) =>
        HoldsNoteOn(m, c, pitch, velocity, time, channel, program, notes, lyrics);
      case NoteOff(c, pitch) => HoldsNoteOff(m, c, pitch, time, channel, program, notes, lyrics);
      case Lyric(text) => HoldsLyric(m, text, time, channel, program, notes, lyrics);
      case Control(c, number, level) => HoldsControl(m, c, time, number, level, channel, program, notes, lyrics);
      case PitchBend(c, bend) => HoldsBend(m, c, time, bend, channel, program, notes, lyrics);
      case ProgramChange(c, next) => HoldsProgram(m, c, next, channel, program, notes, lyrics);
      case Ignored =>
    }
  }

  lemma HoldsNothingMore(notes: seq<Struck>, lyrics: seq<TickText>)
    ensures notes + [] == notes && lyrics + [] == lyrics
  {}

  lemma HoldsBend(m: Model, c: u4, time: u64, bend: i16,
                  channel: u4, program: u7, notes: seq<Struck>, lyrics: seq<TickText>)
    requires Valid(m) && Holds(m, channel, program, notes, lyrics)
    ensures var m' := AddPitchBend(m, c, time, bend); Valid(m') && Holds(m', channel, program, notes, lyrics)
  {
    hide Valid, Holds, WithCurrent;
    var group := Current(m, c);
    HoldsWithCurrent(m, c, group.(pitchBends := group.pitchBends + [Timed(time, bend)]), channel, program, notes, lyrics);
  }

  lemma HoldsProgram(m: Model, c: u4, next: u7,
                     channel: u4, program: u7, notes: seq<Struck>, lyrics: seq<TickText>)
    requires Valid(m) && Holds(m, channel, program, notes, lyrics)
    ensures var m' := SetProgram(m, c, next); Valid(m') && Holds(m', channel, program, notes, lyrics)
  {
    hide Queued;
    ValidWithout(m, SetProgram(m, c, next));
  }

  /**
    For every run, a channel and program have a group exactly when they received
    a note-on or a lyric, and the group holds exactly those, in arrival order.
   */
  lemma {:induction false} GroupsHoldDeliveries(ops: seq<TimedOp>, n: nat, channel: u4, program: u7)
    requires Monotone(ops) && n <= |ops|
    ensures Holds(ModelAt(ops, n), channel, program, NotesFor(ops, n, channel, program), LyricsFor(ops, n, channel, program))
  {
    hide Holds, Apply, Valid, InOrder, ModelAt, Monotone;
    if n == 0 {
      ModelStart(ops);
      HoldsEmpty(channel, program);
    } else {
      GroupsHoldDeliveries(ops, n - 1, channel, program);
      ModelStep(ops, n);
      ProgramAtCorrect(ops, n - 1, channel);
      HoldsStep(ModelAt(ops, n - 1), ops[n - 1].op, ops[n - 1].time, channel, program,
                NotesFor(ops, n - 1, channel, program), LyricsFor(ops, n - 1, channel, program));
    }
  }

  lemma HoldsEmpty(channel: u4, program: u7)
    ensures Valid(EmptyModel()) && Holds(EmptyModel(), channel, program, [], [])
  {}
}
