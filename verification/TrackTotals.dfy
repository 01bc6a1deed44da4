/** How many rows a track state holds, and that an operation adds at most one (and one pedal). */
module TrackTotals {
  import opened Base
  import opened Smf
  import opened NoteColumns
  import opened ScoreTypes
  import opened TrackModel
  import opened TrackInvariants

  /** Rows of one group; `pedals` selects what is counted. */
  function GroupRows(g: Group, pedals: bool): nat {
    if pedals then |g.pedals| else |g.columns.notes| + |g.controls| + |g.pitchBends| + |g.lyrics|
  }

  function SumRows(groups: seq<Group>, n: nat, pedals: bool): nat
    requires n <= |groups|
  {
    if n == 0 then 0 else SumRows(groups, n - 1, pedals) + GroupRows(groups[n - 1], pedals)
  }

  /** All rows held: in groups and in stragglers. */
  function ModelRows(m: Model, pedals: bool): nat {
    SumRows(m.groups, |m.groups|, pedals) + SumRows(m.stragglers, |m.stragglers|, pedals)
  }

  lemma {:induction false} SumRowsUpdate(groups: seq<Group>, i: nat, group: Group, n: nat, pedals: bool)
    requires i < |groups| && n <= |groups|
    ensures SumRows(groups[i := group], n, pedals) + (if i < n then GroupRows(groups[i], pedals) else 0)
         == SumRows(groups, n, pedals) + (if i < n then GroupRows(group, pedals) else 0)
  {
    if n > 0 {
      SumRowsUpdate(groups, i, group, n - 1, pedals);
    }
  }

  lemma {:induction false} SumRowsAppend(groups: seq<Group>, group: Group, n: nat, pedals: bool)
    requires n <= |groups|
    ensures SumRows(groups + [group], n, pedals) == SumRows(groups, n, pedals)
  {
    if n > 0 {
      SumRowsAppend(groups, group, n - 1, pedals);
    }
  }

  lemma EnsureGroupRows(m: Model, channel: u4, pedals: bool)
    requires Valid(m)
    ensures ModelRows(EnsureGroup(m, channel).0, pedals) == ModelRows(m, pedals)
  {
    hide Queued, Indexed;
    var (m', g) := EnsureGroup(m, channel);
    if Key(channel, m.programs[channel]) !in m.index {
      SumRowsAppend(m.groups, m'.groups[g], |m.groups|, pedals);
      SumRowsUpdate(m.stragglers, channel, NewGroup(0, 0), 16, pedals);
    }
  }

  lemma WithGroupRows(m: Model, g: nat, group: Group, pedals: bool)
    requires g < |m.groups|
    ensures ModelRows(WithGroup(m, g, group), pedals) + GroupRows(m.groups[g], pedals)
         == ModelRows(m, pedals) + GroupRows(group, pedals)
  {
    SumRowsUpdate(m.groups, g, group, |m.groups|, pedals);
  }

  lemma WithCurrentRows(m: Model, channel: u4, group: Group, pedals: bool)
    requires Valid(m)
    ensures ModelRows(WithCurrent(m, channel, group), pedals) + GroupRows(Current(m, channel), pedals)
         == ModelRows(m, pedals) + GroupRows(group, pedals)
  {
    hide Queued, Indexed;
    match Target(m, channel)
    case Some(g) => WithGroupRows(m, g, group, pedals);
    case None => SumRowsUpdate(m.stragglers, channel, group, 16, pedals);
  }

  lemma AddNoteRows(m: Model, channel: u4, pitch: u7, velocity: u7, time: u64, pedals: bool)
    requires Valid(m)
    ensures ModelRows(AddNote(m, channel, pitch, velocity, time), pedals) == ModelRows(m, pedals) + if pedals then 0 else 1
  {
    hide Valid, ModelRows;
    EnsureGroupRows(m, channel, pedals);
    var (m', g) := EnsureGroup(m, channel);
    var group := m'.groups[g].(columns := Pushed(m'.groups[g].columns, time, pitch, velocity));
    WithGroupRows(m', g, group, pedals);
    RowsIgnoreQueues(WithGroup(m', g, group), AddNote(m, channel, pitch, velocity, time), pedals);
  }

  lemma RowsIgnoreQueues(m: Model, m': Model, pedals: bool)
    requires m'.groups == m.groups && m'.stragglers == m.stragglers
    ensures ModelRows(m', pedals) == ModelRows(m, pedals)
  {}

  lemma EndNoteRows(m: Model, channel: u4, pitch: u7, time: u64, pedals: bool)
    requires Valid(m)
    ensures ModelRows(EndNote(m, channel, pitch, time), pedals) == ModelRows(m, pedals)
  {
    hide ModelRows, Indexed;
    var k := Key(channel, pitch);
    if m.open[k] != [] {
      var r := m.open[k][0];
      assert Queued(m, k, m.open[k]) && OpenAt(m, k, r);
      var group := m.groups[r.group].(columns := Completed(m.groups[r.group].columns, r.note, WrappingSub(time, r.time)));
      WithGroupRows(m, r.group, group, pedals);
      RowsIgnoreQueues(WithGroup(m, r.group, group), EndNote(m, channel, pitch, time), pedals);
    }
  }

  lemma AddLyricRows(m: Model, time: u64, text: TextRange, pedals: bool)
    requires Valid(m)
    ensures ModelRows(AddLyric(m, time, text), pedals) == ModelRows(m, pedals) + if pedals then 0 else 1
  {
    hide Valid, ModelRows;
    EnsureGroupRows(m, 0, pedals);
    var (m', g) := EnsureGroup(m, 0);
    WithGroupRows(m', g, m'.groups[g].(lyrics := m'.groups[g].lyrics + [Timed(time, text)]), pedals);
  }

  lemma HandlePedalRows(m: Model, channel: u4, time: u64, level: u7, pedals: bool)
    requires Valid(m)
    ensures var r := HandlePedal(m, channel, time, level);
            r.Ok? ==> ModelRows(r.value, pedals) <= ModelRows(m, pedals) + if pedals then 1 else 0
  {
    hide Queued, Indexed, ModelRows, WithCurrent;
    var start := m.pedalStarts[channel];
    if level >= 64 {
      RowsIgnoreQueues(m, m.(pedalStarts := m.pedalStarts[channel := Some(time)]), pedals);
    } else if start.Some? && time >= start.value {
      var released := m.(pedalStarts := m.pedalStarts[channel := None]);
      ValidWithout(m, released);
      RowsIgnoreQueues(m, released, pedals);
      var group := Current(m, channel);
      WithCurrentRows(released, channel, group.(pedals := group.pedals + [Timed(start.value, time - start.value)]), pedals);
    }
  }

  /** One operation adds at most one row, and at most one pedal interval. */
  lemma ApplyRows(m: Model, op: TrackOp, time: u64, pedals: bool)
    requires Valid(m)
    ensures var r := Apply(m, op, time);
            r.Ok? ==> ModelRows(r.value, pedals) <= ModelRows(m, pedals) + 1
  {
    hide Queued, Indexed, AddNote, EndNote, AddLyric, HandlePedal, ModelRows, WithCurrent;
    match op {
      case NoteOn(channel, pitch, velocity) => AddNoteRows(m, channel, pitch, velocity, time, pedals);
      case NoteOff(channel, pitch) => EndNoteRows(m, channel, pitch, time, pedals);
      case Lyric(text) => AddLyricRows(m, time, text, pedals);
      case Control(channel, number, level) =>
        var group := Current(m, channel);
        WithCurrentRows(m, channel, group.(controls := group.controls + [Timed(time, ControlChange(number, level))]), pedals);
        AddControlValid(m, channel, time, number, level);
        HandlePedalRows(AddControl(m, channel, time, number, level), channel, time, level, pedals);
      case PitchBend(channel, bend) =>
        var group := Current(m, channel);
        WithCurrentRows(m, channel, group.(pitchBends := group.pitchBends + [Timed(time, bend)]), pedals);
      case ProgramChange(channel, program) => RowsIgnoreQueues(m, SetProgram(m, channel, program), pedals);
      case Ignored =>
    }
  }

  lemma EmptyModelRows(pedals: bool)
    ensures ModelRows(EmptyModel(), pedals) == 0
  {
    EmptyRows(EmptyModel().stragglers, 16, pedals);
  }

  lemma {:induction false} EmptyRows(groups: seq<Group>, n: nat, pedals: bool)
    requires n <= |groups| && forall i :: 0 <= i < n ==> groups[i] == NewGroup(0, 0)
    ensures SumRows(groups, n, pedals) == 0
  {
    if n > 0 {
      EmptyRows(groups, n - 1, pedals);
    }
  }

  // ----- At most 2048 groups

  lemma {:induction false} Pigeonhole(s: seq<nat>, bound: nat)
    requires forall i :: 0 <= i < |s| ==> s[i] < bound
    requires forall i, j :: 0 <= i < j < |s| ==> s[i] != s[j]
    ensures |s| <= bound
  {
    if |s| > 0 {
      if i :| 0 <= i < |s| && s[i] == bound - 1 {
        var t := s[..i] + s[i + 1..];
        forall j, k | 0 <= j < k < |t| ensures t[j] != t[k] && t[j] < bound - 1 {
          assert t[j] == s[if j < i then j else j + 1] && t[k] == s[if k < i then k else k + 1];
        }
        forall j | 0 <= j < |t| ensures t[j] < bound - 1 {
          assert t[j] == s[if j < i then j else j + 1];
        }
        Pigeonhole(t, bound - 1);
      } else {
        assert s[0] < bound;
        Pigeonhole(s, bound - 1);
      }
    }
  }

  /** A track has at most one group per channel and program, so a group index never meets its sentinel. */
  lemma GroupsBounded(m: Model)
    requires Valid(m)
    ensures |m.groups| <= KEYS
  {
    hide Queued;
    Pigeonhole(seq(|m.groups|, g requires 0 <= g < |m.groups| => m.groups[g].GroupKey()), KEYS);
  }
}
