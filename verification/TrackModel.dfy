/**
  The simple form of one track under construction: a queue of open notes per
  channel and pitch, one group per channel and program, and one buffer per
  channel for rows that arrive before their group exists.
 */
module TrackModel {
  import opened Base
  import opened Smf
  import opened NoteColumns
  import opened ScoreTypes

  const KEYS: nat := 2048

  function Key(channel: u4, low: u7): (k: nat)
    ensures k < KEYS
  {
    channel * 128 + low
  }

  /** The rows of one channel and program, or the rows a channel has not placed yet. */
  datatype Group = Group(
    channel: u4,
    program: u7,
    columns: Columns,
    controls: seq<TickControlChange>,
    pitchBends: seq<TickPitchBend>,
    pedals: seq<TickPedal>,
    lyrics: seq<TickText>)
  {
    function GroupKey(): nat {
      Key(channel, program)
    }

    predicate IsEmpty() {
      columns.notes == [] && controls == [] && pitchBends == [] && pedals == [] && lyrics == []
    }
  }

  function NewGroup(channel: u4, program: u7): Group {
    Group(channel, program, Columns([], false), [], [], [], [])
  }

  /** An open note: its group, its position there, and its start. */
  datatype NoteRef = NoteRef(group: nat, note: nat, time: u64)

  datatype Model = Model(
    programs: seq<u7>,
    groups: seq<Group>,
    index: map<nat, nat>,               // from channel and program to the group
    stragglers: seq<Group>,
    open: seq<seq<NoteRef>>,            // per channel and pitch, oldest first
    pedalStarts: seq<Option<u64>>)

  function EmptyModel(): Model {
    Model(seq(16, _ => 0), [], map[], seq(16, _ => NewGroup(0, 0)), seq(KEYS, _ => []), seq(16, _ => None))
  }

  // ----- What every track state satisfies

  ghost predicate Shaped(m: Model) {
    && |m.programs| == 16 && |m.stragglers| == 16 && |m.open| == KEYS && |m.pedalStarts| == 16
    && forall c :: 0 <= c < 16 ==> m.stragglers[c].columns == Columns([], false) && m.stragglers[c].lyrics == []
  }

  /** Groups and keys correspond one to one. */
  ghost predicate Indexed(m: Model) {
    && (forall k :: k in m.index ==> m.index[k] < |m.groups| && m.groups[m.index[k]].GroupKey() == k)
    && (forall g :: 0 <= g < |m.groups| ==> m.groups[g].GroupKey() in m.index && m.index[m.groups[g].GroupKey()] == g)
  }

  predicate InRange(m: Model, r: NoteRef) {
    r.group < |m.groups| && r.note < |m.groups[r.group].columns.notes|
  }

  function NoteOf(m: Model, r: NoteRef): OpenNote
    requires InRange(m, r)
  {
    m.groups[r.group].columns.notes[r.note]
  }

  /** The channel and pitch a note belongs to. */
  function KeyOfNote(m: Model, r: NoteRef): nat
    requires InRange(m, r)
  {
    m.groups[r.group].channel * 128 + NoteOf(m, r).pitch
  }

  /** A queued reference denotes an open note of that channel and pitch. */
  ghost predicate OpenAt(m: Model, k: nat, r: NoteRef) {
    && InRange(m, r)
    && KeyOfNote(m, r) == k
    && NoteOf(m, r).time == r.time
    && NoteOf(m, r).duration.None?
  }

  ghost predicate Queued(m: Model, k: nat, queue: seq<NoteRef>) {
    && (forall i :: 0 <= i < |queue| ==> OpenAt(m, k, queue[i]))
    && (forall i, j :: 0 <= i < j < |queue| ==> queue[i] != queue[j])
  }

  ghost predicate Valid(m: Model) {
    && Shaped(m)
    && Indexed(m)
    && forall k :: 0 <= k < KEYS ==> Queued(m, k, m.open[k])
  }

  // ----- Operations

  function WithGroup(m: Model, g: nat, group: Group): Model
    requires g < |m.groups|
  {
    m.(groups := m.groups[g := group])
  }

  /** Finds or creates the group of a channel's current program; a new group takes the channel's stragglers. */
  function EnsureGroup(m: Model, channel: u4): (r: (Model, nat))
    requires Valid(m)
    ensures r.1 < |r.0.groups|
  {
    var program := m.programs[channel];
    var key := Key(channel, program);
    if key in m.index then (m, m.index[key])
    else
      var straggler := m.stragglers[channel];
      var group := NewGroup(channel, program).(
                     controls := straggler.controls, pitchBends := straggler.pitchBends,
                     pedals := straggler.pedals, lyrics := straggler.lyrics);
      (m.(groups := m.groups + [group],
          index := m.index[key := |m.groups|],
          stragglers := m.stragglers[channel := NewGroup(0, 0)]),
       |m.groups|)
  }

  function AddNote(m: Model, channel: u4, pitch: u7, velocity: u7, time: u64): Model
    requires Valid(m)
  {
    var (m', g) := EnsureGroup(m, channel);
    var group := m'.groups[g];
    var key := Key(channel, pitch);
    var started := WithGroup(m', g, group.(columns := Pushed(group.columns, time, pitch, velocity)));
    started.(open := m'.open[key := m'.open[key] + [NoteRef(g, |group.columns.notes|, time)]])
  }

  /** Unsigned 64-bit subtraction as the release build performs it. */
  function WrappingSub(a: u64, b: u64): u64 {
    if a >= b then a - b else a - b + 0x1_0000_0000_0000_0000
  }

  /** Closes the oldest open note of a channel and pitch; a note-off without one changes nothing. */
  function EndNote(m: Model, channel: u4, pitch: u7, time: u64): Model
    requires Valid(m)
  {
    var key := Key(channel, pitch);
    if m.open[key] == [] then m
    else
      var r := m.open[key][0];
      assert OpenAt(m, key, r);
      var group := m.groups[r.group];
      WithGroup(m, r.group, group.(columns := Completed(group.columns, r.note, WrappingSub(time, r.time)))).(
        open := m.open[key := m.open[key][1..]])
  }

  function SetProgram(m: Model, channel: u4, program: u7): Model
    requires Valid(m)
  {
    m.(programs := m.programs[channel := program])
  }

  /** Where a channel's rows go now: its current group, or its stragglers. */
  function Target(m: Model, channel: u4): Option<nat>
    requires Valid(m)
    ensures Target(m, channel).Some? ==> Target(m, channel).value < |m.groups|
  {
    var key := Key(channel, m.programs[channel]);
    if key in m.index then Some(m.index[key]) else None
  }

  function Current(m: Model, channel: u4): Group
    requires Valid(m)
  {
    match Target(m, channel)
    case Some(g) => m.groups[g]
    case None => m.stragglers[channel]
  }

  function WithCurrent(m: Model, channel: u4, group: Group): Model
    requires Valid(m)
  {
    match Target(m, channel)
    case Some(g) => WithGroup(m, g, group)
    case None => m.(stragglers := m.stragglers[channel := group])
  }

  function AddControl(m: Model, channel: u4, time: u64, number: u7, level: u7): Model
    requires Valid(m)
  {
    var group := Current(m, channel);
    WithCurrent(m, channel, group.(controls := group.controls + [Timed(time, ControlChange(number, level))]))
  }

  function AddPitchBend(m: Model, channel: u4, time: u64, value: i16): Model
    requires Valid(m)
  {
    var group := Current(m, channel);
    WithCurrent(m, channel, group.(pitchBends := group.pitchBends + [Timed(time, value)]))
  }

  /** A level of 64 or more holds the pedal; a lower one releases it and records the interval. */
  function HandlePedal(m: Model, channel: u4, time: u64, level: u7): Result<Model, ParseError>
    requires Valid(m)
  {
    var start := m.pedalStarts[channel];
    if level >= 64 then
      Ok(if start.None? then m.(pedalStarts := m.pedalStarts[channel := Some(time)]) else m)
    else if start.None? then Ok(m)
    else if time < start.value then Err(At(0, TickOverflow))
    else
      var released := m.(pedalStarts := m.pedalStarts[channel := None]);
      var group := Current(m, channel);
      assert Valid(released);
      Ok(WithCurrent(released, channel, group.(pedals := group.pedals + [Timed(start.value, time - start.value)])))
  }

  /** Lyrics belong to channel zero's current program. */
  function AddLyric(m: Model, time: u64, text: TextRange): Model
    requires Valid(m)
  {
    var (m', g) := EnsureGroup(m, 0);
    WithGroup(m', g, m'.groups[g].(lyrics := m'.groups[g].lyrics + [Timed(time, text)]))
  }

  // ----- Runs

  datatype TrackOp =
    | NoteOn(channel: u4, pitch: u7, velocity: u7)
    | NoteOff(channel: u4, pitch: u7)
    | Control(channel: u4, number: u7, level: u7)
    | ProgramChange(channel: u4, program: u7)
    | PitchBend(channel: u4, bend: i16)
    | Lyric(text: TextRange)
    | Ignored

  /** What a channel message means to the score. A note-on with velocity zero is a note-off. */
  function OpOf(status: ChannelStatus, first: u7, second: u7): TrackOp {
    var channel: u4 := status % 16;
    match status / 16
    case 0x8 => NoteOff(channel, first)
    case 0x9 => if second == 0 then NoteOff(channel, first) else NoteOn(channel, first, second)
    case 0xB => Control(channel, first, second)
    case 0xC => ProgramChange(channel, first)
    case 0xE => PitchBend(channel, first + second * 0x80 - 8192)
    case _ => Ignored
  }

  function Apply(m: Model, op: TrackOp, time: u64): (r: Result<Model, ParseError>)
    requires Valid(m)
  {
    match op
    case NoteOn(channel, pitch, velocity) => Ok(AddNote(m, channel, pitch, velocity, time))
    case NoteOff(channel, pitch) => Ok(EndNote(m, channel, pitch, time))
    case Control(channel, number, level) =>
      var m' := AddControl(m, channel, time, number, level);
      assert Valid(m');
      if number == 64 then HandlePedal(m', channel, time, level) else Ok(m')
    case ProgramChange(channel, program) => Ok(SetProgram(m, channel, program))
    case PitchBend(channel, bend) => Ok(AddPitchBend(m, channel, time, bend))
    case Lyric(text) => Ok(AddLyric(m, time, text))
    case Ignored => Ok(m)
  }
}
