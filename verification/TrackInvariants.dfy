/** What every reachable track state satisfies: validity, bounds and time order. */
module TrackInvariants {
  import opened Base
  import opened Smf
  import opened NoteColumns
  import opened ScoreTypes
  import opened TrackModel

  // ----- Validity is kept by every operation

  lemma EmptyModelValid()
    ensures Valid(EmptyModel())
  {}

  /** Validity does not depend on the programs or the pedals. */
  lemma ValidWithout(m: Model, m': Model)
    requires Valid(m) && |m'.programs| == 16 && |m'.pedalStarts| == 16
    requires m' == m.(programs := m'.programs, pedalStarts := m'.pedalStarts)
    ensures Valid(m')
  {
    forall k | 0 <= k < KEYS ensures Queued(m', k, m'.open[k]) {
      assert Queued(m, k, m.open[k]);
      forall i | 0 <= i < |m.open[k]| ensures OpenAt(m', k, m.open[k][i]) {
        assert OpenAt(m, k, m.open[k][i]);
      }
    }
  }

  /** Groups only grow and known notes stay put, so queued references keep their meaning. */
  ghost predicate Grown(m: Model, m': Model) {
    && |m.groups| <= |m'.groups|
    && forall g :: 0 <= g < |m.groups| ==>
         && m'.groups[g].channel == m.groups[g].channel
         && m'.groups[g].program == m.groups[g].program
         && |m.groups[g].columns.notes| <= |m'.groups[g].columns.notes|
         && forall n :: 0 <= n < |m.groups[g].columns.notes| ==>
              m'.groups[g].columns.notes[n] == m.groups[g].columns.notes[n]
  }

  lemma QueuedGrown(m: Model, m': Model, k: nat, queue: seq<NoteRef>)
    requires Grown(m, m') && Queued(m, k, queue)
    ensures Queued(m', k, queue)
  {
    forall i | 0 <= i < |queue| ensures OpenAt(m', k, queue[i]) {
      assert OpenAt(m, k, queue[i]);
    }
  }

  lemma EnsureGroupValid(m: Model, channel: u4)
    requires Valid(m)
    ensures var (m', g) := EnsureGroup(m, channel);
            && Valid(m') && Grown(m, m') && m'.open == m.open
            && m'.programs == m.programs && m'.pedalStarts == m.pedalStarts
            && m'.groups[g].GroupKey() == Key(channel, m.programs[channel])
            && m'.groups[g].channel == channel && m'.groups[g].program == m.programs[channel]
  {
    var (m', g) := EnsureGroup(m, channel);
    forall k | 0 <= k < KEYS ensures Queued(m', k, m'.open[k]) {
      QueuedGrown(m, m', k, m.open[k]);
    }
  }

  lemma AddNoteValid(m: Model, channel: u4, pitch: u7, velocity: u7, time: u64)
    requires Valid(m)
    ensures Valid(AddNote(m, channel, pitch, velocity, time))
    ensures Grown(m, AddNote(m, channel, pitch, velocity, time))
  {
    var (m1, g) := EnsureGroup(m, channel);
    EnsureGroupValid(m, channel);
    var m2 := AddNote(m, channel, pitch, velocity, time);
    var key := Key(channel, pitch);
    assert Grown(m1, m2);
    forall k | 0 <= k < KEYS ensures Queued(m2, k, m2.open[k]) {
      QueuedGrown(m1, m2, k, m1.open[k]);
      if k == key {
        var r := NoteRef(g, |m1.groups[g].columns.notes|, time);
        assert OpenAt(m2, k, r);
        assert forall i :: 0 <= i < |m1.open[k]| ==> OpenAt(m1, k, m1.open[k][i]);
      }
    }
  }

  lemma EndNoteValid(m: Model, channel: u4, pitch: u7, time: u64)
    requires Valid(m)
    ensures Valid(EndNote(m, channel, pitch, time))
  {
    var key := Key(channel, pitch);
    if m.open[key] != [] {
      var m' := EndNote(m, channel, pitch, time);
      var r := m.open[key][0];
      assert Queued(m, key, m.open[key]) && OpenAt(m, key, r);
      forall k | 0 <= k < KEYS ensures Queued(m', k, m'.open[k]) {
        assert Queued(m, k, m.open[k]);
        forall i | 0 <= i < |m'.open[k]| ensures OpenAt(m', k, m'.open[k][i]) {
          var s := if k == key then m.open[k][i + 1] else m.open[k][i];
          assert m'.open[k][i] == s && OpenAt(m, k, s);
        }
      }
    }
  }

  lemma WithCurrentValid(m: Model, channel: u4, group: Group)
    requires Valid(m) && group.columns == Current(m, channel).columns && group.lyrics == Current(m, channel).lyrics
    requires group.channel == Current(m, channel).channel && group.program == Current(m, channel).program
    ensures Valid(WithCurrent(m, channel, group))
  {
    var m' := WithCurrent(m, channel, group);
    assert Grown(m, m');
    forall k | 0 <= k < KEYS ensures Queued(m', k, m'.open[k]) {
      QueuedGrown(m, m', k, m.open[k]);
    }
  }

  lemma AddLyricValid(m: Model, time: u64, text: TextRange)
    requires Valid(m)
    ensures Valid(AddLyric(m, time, text))
  {
    var (m1, g) := EnsureGroup(m, 0);
    EnsureGroupValid(m, 0);
    var m2 := AddLyric(m, time, text);
    assert Grown(m1, m2);
    forall k | 0 <= k < KEYS ensures Queued(m2, k, m2.open[k]) {
      QueuedGrown(m1, m2, k, m1.open[k]);
    }
  }

  lemma AddControlValid(m: Model, channel: u4, time: u64, number: u7, level: u7)
    requires Valid(m)
    ensures Valid(AddControl(m, channel, time, number, level))
  {
    var group := Current(m, channel);
    WithCurrentValid(m, channel, group.(controls := group.controls + [Timed(time, ControlChange(number, level))]));
  }

  lemma AddPitchBendValid(m: Model, channel: u4, time: u64, value: i16)
    requires Valid(m)
    ensures Valid(AddPitchBend(m, channel, time, value))
  {
    var group := Current(m, channel);
    WithCurrentValid(m, channel, group.(pitchBends := group.pitchBends + [Timed(time, value)]));
  }

  lemma HandlePedalValid(m: Model, channel: u4, time: u64, level: u7)
    requires Valid(m)
    ensures HandlePedal(m, channel, time, level).Ok? ==> Valid(HandlePedal(m, channel, time, level).value)
  {
    var start := m.pedalStarts[channel];
    if level < 64 && start.Some? && time >= start.value {
      var released := m.(pedalStarts := m.pedalStarts[channel := None]);
      ValidWithout(m, released);
      var group := Current(m, channel);
      WithCurrentValid(released, channel, group.(pedals := group.pedals + [Timed(start.value, time - start.value)]));
    }
  }

  /** No sequence of operations leaves the valid states. */
  lemma ApplyValid(m: Model, op: TrackOp, time: u64)
    requires Valid(m)
    ensures Apply(m, op, time).Ok? ==> Valid(Apply(m, op, time).value)
  {
    hide AddNote, EndNote, AddLyric, AddControl, AddPitchBend, HandlePedal, Queued, Indexed;
    match op {
      case NoteOn(channel, pitch, velocity) => AddNoteValid(m, channel, pitch, velocity, time);
      case NoteOff(channel, pitch) => EndNoteValid(m, channel, pitch, time);
      case Lyric(text) => AddLyricValid(m, time, text);
      case Control(channel, number, level) =>
        AddControlValid(m, channel, time, number, level);
        HandlePedalValid(AddControl(m, channel, time, number, level), channel, time, level);
      case PitchBend(channel, bend) => AddPitchBendValid(m, channel, time, bend);
      case ProgramChange(channel, program) => ValidWithout(m, SetProgram(m, channel, program));
      case Ignored =>
    }
  }

  // ----- Everything stays in time order

  ghost predicate NotesInOrder(notes: seq<OpenNote>, now: nat) {
    && (forall i, j :: 0 <= i < j < |notes| ==> notes[i].time <= notes[j].time)
    && (forall i :: 0 <= i < |notes| ==> notes[i].time <= now)
  }

  ghost predicate GroupInOrder(g: Group, now: nat, pedalBound: nat) {
    && NotesInOrder(g.columns.notes, now)
    && Ordered(g.controls, now)
    && Ordered(g.pitchBends, now)
    && Ordered(g.lyrics, now)
    && Ordered(g.pedals, pedalBound)
  }

  /** Recorded pedal intervals start no later than a pedal that is still down. */
  function PedalBound(m: Model, channel: u4, now: nat): nat
    requires Valid(m)
  {
    if m.pedalStarts[channel].Some? then m.pedalStarts[channel].value else now
  }

  ghost predicate InOrder(m: Model, now: nat)
    requires Valid(m)
  {
    && (forall g :: 0 <= g < |m.groups| ==> GroupInOrder(m.groups[g], now, PedalBound(m, m.groups[g].channel, now)))
    && (forall c :: 0 <= c < 16 ==> GroupInOrder(m.stragglers[c], now, PedalBound(m, c, now)))
    && (forall c :: 0 <= c < 16 && m.pedalStarts[c].Some? ==> m.pedalStarts[c].value <= now)
  }

  lemma EmptyModelInOrder(now: nat)
    ensures Valid(EmptyModel()) && InOrder(EmptyModel(), now)
  {}

  lemma InOrderLater(m: Model, now: nat, later: nat)
    requires Valid(m) && InOrder(m, now) && now <= later
    ensures InOrder(m, later)
  {
    hide Queued, Indexed, GroupInOrder;
    forall g | 0 <= g < |m.groups| ensures GroupInOrder(m.groups[g], later, PedalBound(m, m.groups[g].channel, later)) {
      GroupInOrderLater(m.groups[g], now, PedalBound(m, m.groups[g].channel, now), later, PedalBound(m, m.groups[g].channel, later));
    }
    forall c | 0 <= c < 16 ensures GroupInOrder(m.stragglers[c], later, PedalBound(m, c, later)) {
      GroupInOrderLater(m.stragglers[c], now, PedalBound(m, c, now), later, PedalBound(m, c, later));
    }
  }

  lemma GroupInOrderLater(g: Group, now: nat, bound: nat, later: nat, laterBound: nat)
    requires GroupInOrder(g, now, bound) && now <= later && bound <= laterBound
    ensures GroupInOrder(g, later, laterBound)
  {}

  lemma NewGroupInOrder(now: nat, pedalBound: nat)
    ensures GroupInOrder(NewGroup(0, 0), now, pedalBound)
  {}

  /** A new group that takes a channel's stragglers is in order. */
  lemma TakenInOrder(s: Group, channel: u4, program: u7, now: nat, pedalBound: nat)
    requires GroupInOrder(s, now, pedalBound)
    ensures GroupInOrder(NewGroup(channel, program).(controls := s.controls, pitchBends := s.pitchBends,
                                                     pedals := s.pedals, lyrics := s.lyrics), now, pedalBound)
  {}

  lemma EnsureGroupInOrder(m: Model, channel: u4, now: nat)
    requires Valid(m) && InOrder(m, now)
    ensures Valid(EnsureGroup(m, channel).0) && InOrder(EnsureGroup(m, channel).0, now)
  {
    hide Queued, Indexed, GroupInOrder;
    EnsureGroupValid(m, channel);
    NewGroupInOrder(now, PedalBound(m, channel, now));
    TakenInOrder(m.stragglers[channel], channel, m.programs[channel], now, PedalBound(m, channel, now));
    var (m', g) := EnsureGroup(m, channel);
    forall h | 0 <= h < |m'.groups| ensures GroupInOrder(m'.groups[h], now, PedalBound(m', m'.groups[h].channel, now)) {
      if h < |m.groups| {
        assert GroupInOrder(m.groups[h], now, PedalBound(m, m.groups[h].channel, now));
      } else {
        assert GroupInOrder(m.stragglers[channel], now, PedalBound(m, channel, now));
      }
    }
    forall c | 0 <= c < 16 ensures GroupInOrder(m'.stragglers[c], now, PedalBound(m', c, now)) {
      assert GroupInOrder(m.stragglers[c], now, PedalBound(m, c, now));
    }
  }

  /** Replacing one group by one that is itself in order keeps the whole state in order. */
  lemma WithGroupInOrder(m: Model, g: nat, group: Group, m': Model, now: nat)
    requires Valid(m) && InOrder(m, now) && g < |m.groups|
    requires Valid(m') && m'.groups == m.groups[g := group] && m'.stragglers == m.stragglers && m'.pedalStarts == m.pedalStarts
    requires group.channel == m.groups[g].channel && GroupInOrder(group, now, PedalBound(m, group.channel, now))
    ensures InOrder(m', now)
  {
    hide Queued, Indexed, GroupInOrder;
    forall h | 0 <= h < |m'.groups| ensures GroupInOrder(m'.groups[h], now, PedalBound(m', m'.groups[h].channel, now)) {
      assert GroupInOrder(m.groups[h], now, PedalBound(m, m.groups[h].channel, now));
    }
    forall c | 0 <= c < 16 ensures GroupInOrder(m'.stragglers[c], now, PedalBound(m', c, now)) {
      assert GroupInOrder(m.stragglers[c], now, PedalBound(m, c, now));
    }
  }

  lemma AddNoteInOrder(m: Model, channel: u4, pitch: u7, velocity: u7, time: u64)
    requires Valid(m) && InOrder(m, time)
    ensures Valid(AddNote(m, channel, pitch, velocity, time))
    ensures InOrder(AddNote(m, channel, pitch, velocity, time), time)
  {
    hide Queued, Indexed, Shaped;
    EnsureGroupInOrder(m, channel, time);
    EnsureGroupValid(m, channel);
    AddNoteValid(m, channel, pitch, velocity, time);
    var (m1, g) := EnsureGroup(m, channel);
    var m2 := AddNote(m, channel, pitch, velocity, time);
    assert GroupInOrder(m1.groups[g], time, PedalBound(m1, channel, time));
    WithGroupInOrder(m1, g, m2.groups[g], m2, time);
  }

  lemma EndNoteInOrder(m: Model, channel: u4, pitch: u7, time: u64)
    requires Valid(m) && InOrder(m, time)
    ensures Valid(EndNote(m, channel, pitch, time))
    ensures InOrder(EndNote(m, channel, pitch, time), time)
  {
    EndNoteValid(m, channel, pitch, time);
    var key := Key(channel, pitch);
    if m.open[key] != [] {
      var m' := EndNote(m, channel, pitch, time);
      var r := m.open[key][0];
      assert OpenAt(m, key, r);
      assert GroupInOrder(m.groups[r.group], time, PedalBound(m, m.groups[r.group].channel, time));
      WithGroupInOrder(m, r.group, m'.groups[r.group], m', time);
    }
  }

  /** Replacing a channel's current rows by rows in order keeps the state in order. */
  lemma WithCurrentInOrder(m: Model, channel: u4, group: Group, now: nat)
    requires Valid(m) && InOrder(m, now)
    requires group.columns == Current(m, channel).columns && group.lyrics == Current(m, channel).lyrics
    requires group.channel == Current(m, channel).channel && group.program == Current(m, channel).program
    requires GroupInOrder(group, now, PedalBound(m, channel, now))
    ensures Valid(WithCurrent(m, channel, group)) && InOrder(WithCurrent(m, channel, group), now)
  {
    hide Queued, GroupInOrder, Indexed;
    WithCurrentValid(m, channel, group);
    var m' := WithCurrent(m, channel, group);
    match Target(m, channel)
    case Some(g) =>
      CurrentChannel(m, channel);
      WithGroupInOrder(m, g, group, m', now);
    case None =>
      forall h | 0 <= h < |m'.groups| ensures GroupInOrder(m'.groups[h], now, PedalBound(m', m'.groups[h].channel, now)) {
        assert GroupInOrder(m.groups[h], now, PedalBound(m, m.groups[h].channel, now));
      }
      forall c | 0 <= c < 16 ensures GroupInOrder(m'.stragglers[c], now, PedalBound(m', c, now)) {
        assert GroupInOrder(m.stragglers[c], now, PedalBound(m, c, now));
      }
  }

  /** A channel's rows go to a group of that channel. */
  lemma CurrentChannel(m: Model, channel: u4)
    requires Valid(m)
    ensures Target(m, channel).Some? ==> Current(m, channel).channel == channel
  {}

  lemma CurrentInOrder(m: Model, channel: u4, now: nat)
    requires Valid(m) && InOrder(m, now)
    ensures GroupInOrder(Current(m, channel), now, PedalBound(m, channel, now))
  {
    CurrentChannel(m, channel);
  }

  lemma OrderedAppend<T>(s: seq<Timed<T>>, now: nat, row: Timed<T>, later: nat)
    requires Ordered(s, now) && now <= row.time <= later
    ensures Ordered(s + [row], later)
  {}

  lemma AddControlInOrder(m: Model, channel: u4, time: u64, number: u7, level: u7)
    requires Valid(m) && InOrder(m, time)
    ensures var m' := AddControl(m, channel, time, number, level); Valid(m') && InOrder(m', time)
  {
    CurrentInOrder(m, channel, time);
    var group := Current(m, channel);
    var row := Timed(time, ControlChange(number, level));
    OrderedAppend(group.controls, time, row, time);
    hide Queued, Ordered;
    WithCurrentInOrder(m, channel, group.(controls := group.controls + [row]), time);
  }

  lemma AddPitchBendInOrder(m: Model, channel: u4, time: u64, value: i16)
    requires Valid(m) && InOrder(m, time)
    ensures var m' := AddPitchBend(m, channel, time, value); Valid(m') && InOrder(m', time)
  {
    CurrentInOrder(m, channel, time);
    var group := Current(m, channel);
    OrderedAppend(group.pitchBends, time, Timed(time, value), time);
    hide Queued, Ordered;
    WithCurrentInOrder(m, channel, group.(pitchBends := group.pitchBends + [Timed(time, value)]), time);
  }

  /** Pressing or releasing a pedal leaves every other row alone. */
  lemma PedalStartInOrder(m: Model, channel: u4, start: Option<u64>, now: nat)
    requires Valid(m) && InOrder(m, now)
    requires start == None || (m.pedalStarts[channel] == None && start == Some(now))
    ensures var m' := m.(pedalStarts := m.pedalStarts[channel := start]); Valid(m') && InOrder(m', now)
  {
    var m' := m.(pedalStarts := m.pedalStarts[channel := start]);
    ValidWithout(m, m');
    hide Queued, Indexed, GroupInOrder;
    forall h | 0 <= h < |m'.groups| ensures GroupInOrder(m'.groups[h], now, PedalBound(m', m'.groups[h].channel, now)) {
      GroupInOrderLater(m.groups[h], now, PedalBound(m, m.groups[h].channel, now), now, PedalBound(m', m'.groups[h].channel, now));
    }
    forall c | 0 <= c < 16 ensures GroupInOrder(m'.stragglers[c], now, PedalBound(m', c, now)) {
      GroupInOrderLater(m.stragglers[c], now, PedalBound(m, c, now), now, PedalBound(m', c, now));
    }
  }

  lemma PedalRowInOrder(g: Group, start: u64, duration: u64, now: nat)
    requires GroupInOrder(g, now, start) && start <= now
    ensures GroupInOrder(g.(pedals := g.pedals + [Timed(start, duration)]), now, now)
  {
    OrderedAppend(g.pedals, start, Timed(start, duration), now);
    hide Ordered;
  }

  /** The pedal subtraction never fails when time does not run backwards. */
  lemma HandlePedalInOrder(m: Model, channel: u4, time: u64, level: u7)
    requires Valid(m) && InOrder(m, time)
    ensures var r := HandlePedal(m, channel, time, level); r.Ok? && Valid(r.value) && InOrder(r.value, time)
  {
    hide Queued, Indexed, GroupInOrder, WithCurrent;
    var start := m.pedalStarts[channel];
    if level >= 64 {
      if start.None? {
        PedalStartInOrder(m, channel, Some(time), time);
      }
    } else if start.Some? {
      var released := m.(pedalStarts := m.pedalStarts[channel := None]);
      PedalStartInOrder(m, channel, None, time);
      CurrentInOrder(m, channel, time);
      var group := Current(m, channel);
      assert Current(released, channel) == group;
      PedalRowInOrder(group, start.value, time - start.value, time);
      WithCurrentInOrder(released, channel, group.(pedals := group.pedals + [Timed(start.value, time - start.value)]), time);
    }
  }

  lemma AddLyricInOrder(m: Model, time: u64, text: TextRange)
    requires Valid(m) && InOrder(m, time)
    ensures var m' := AddLyric(m, time, text); Valid(m') && InOrder(m', time)
  {
    EnsureGroupInOrder(m, 0, time);
    EnsureGroupValid(m, 0);
    AddLyricValid(m, time, text);
    var (m1, g) := EnsureGroup(m, 0);
    var m2 := AddLyric(m, time, text);
    assert GroupInOrder(m1.groups[g], time, PedalBound(m1, 0, time));
    OrderedAppend(m1.groups[g].lyrics, time, Timed(time, text), time);
    hide Queued, Indexed, Shaped, Ordered;
    WithGroupInOrder(m1, g, m2.groups[g], m2, time);
  }

  /**
    With times that never decrease, every operation succeeds and leaves all rows
    of every group in time order, so emitting a group needs no sort.
   */
  lemma ApplyInOrder(m: Model, op: TrackOp, now: nat, time: u64)
    requires Valid(m) && InOrder(m, now) && now <= time
    ensures var r := Apply(m, op, time); r.Ok? && Valid(r.value) && InOrder(r.value, time)
  {
    InOrderLater(m, now, time);
    ApplyValid(m, op, time);
    hide AddNote, EndNote, AddLyric, AddControl, AddPitchBend, HandlePedal, Queued, Indexed;
    match op {
      case NoteOn(channel, pitch, velocity) => AddNoteInOrder(m, channel, pitch, velocity, time);
      case NoteOff(channel, pitch) => EndNoteInOrder(m, channel, pitch, time);
      case Lyric(text) => AddLyricInOrder(m, time, text);
      case Control(channel, number, level) =>
        AddControlInOrder(m, channel, time, number, level);
        HandlePedalInOrder(AddControl(m, channel, time, number, level), channel, time, level);
      case PitchBend(channel, bend) => AddPitchBendInOrder(m, channel, time, bend);
      case ProgramChange(channel, program) => SetProgramInOrder(m, channel, program, time);
      case Ignored =>
    }
  }

  lemma SetProgramInOrder(m: Model, channel: u4, program: u7, now: nat)
    requires Valid(m) && InOrder(m, now)
    ensures var m' := SetProgram(m, channel, program); Valid(m') && InOrder(m', now)
  {
    var m' := SetProgram(m, channel, program);
    ValidWithout(m, m');
    hide Queued, Indexed, GroupInOrder;
    forall h | 0 <= h < |m'.groups| ensures GroupInOrder(m'.groups[h], now, PedalBound(m', m'.groups[h].channel, now)) {
      assert GroupInOrder(m.groups[h], now, PedalBound(m, m.groups[h].channel, now));
    }
    forall c | 0 <= c < 16 ensures GroupInOrder(m'.stragglers[c], now, PedalBound(m', c, now)) {
      assert GroupInOrder(m.stragglers[c], now, PedalBound(m, c, now));
    }
  }

  /** A queued note's start is never after the current time, so its duration never wraps. */
  lemma DurationExact(m: Model, k: nat, i: nat, time: u64)
    requires Valid(m) && InOrder(m, time) && k < KEYS && i < |m.open[k]|
    ensures m.open[k][i].time <= time && WrappingSub(time, m.open[k][i].time) == time - m.open[k][i].time
  {
    var r := m.open[k][i];
    assert Queued(m, k, m.open[k]) && OpenAt(m, k, r);
    assert GroupInOrder(m.groups[r.group], time, PedalBound(m, m.groups[r.group].channel, time));
  }
}
