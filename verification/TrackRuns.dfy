/**
  Whole runs of a track builder: what the groups, queues and pedals hold after
  any sequence of operations whose times never decrease, said in terms of the
  operations alone.
 */
module TrackRuns {
  import opened Base
  import opened Smf
  import opened NoteColumns
  import opened ScoreTypes
  import opened TrackModel
  import opened TrackInvariants

  datatype TimedOp = TimedOp(op: TrackOp, time: u64)

  ghost predicate Monotone(ops: seq<TimedOp>) {
    forall i, j :: 0 <= i < j < |ops| ==> ops[i].time <= ops[j].time
  }

  function TimeAt(ops: seq<TimedOp>, n: nat): u64
    requires n <= |ops|
  {
    if n == 0 then 0 else ops[n - 1].time
  }

  /** The state after the first `n` operations. */
  ghost function ModelAt(ops: seq<TimedOp>, n: nat): (m: Model)
    requires Monotone(ops) && n <= |ops|
    ensures Valid(m) && InOrder(m, TimeAt(ops, n))
  {
    if n == 0 then
      EmptyModelInOrder(0);
      EmptyModel()
    else
      var before := ModelAt(ops, n - 1);
      ApplyInOrder(before, ops[n - 1].op, TimeAt(ops, n - 1), ops[n - 1].time);
      Apply(before, ops[n - 1].op, ops[n - 1].time).value
  }

  lemma ModelStart(ops: seq<TimedOp>)
    requires Monotone(ops)
    ensures ModelAt(ops, 0) == EmptyModel()
  {}

  lemma ModelStep(ops: seq<TimedOp>, n: nat)
    requires Monotone(ops) && 0 < n <= |ops|
    ensures var m, op, time := ModelAt(ops, n - 1), ops[n - 1].op, ops[n - 1].time;
            && InOrder(m, time)
            && Apply(m, op, time) == Ok(ModelAt(ops, n))
  {
    hide Shaped, Indexed, Queued, InOrder, Apply;
    InOrderLater(ModelAt(ops, n - 1), TimeAt(ops, n - 1), ops[n - 1].time);
    ApplyInOrder(ModelAt(ops, n - 1), ops[n - 1].op, ops[n - 1].time, ops[n - 1].time);
  }

  // ----- The operations of one channel and pitch

  datatype NoteStart = NoteStart(time: u64, velocity: u7, program: u7)

  /** A channel's last program change. */
  function ProgramAt(ops: seq<TimedOp>, n: nat, channel: u4): u7
    requires n <= |ops|
  {
    if n == 0 then 0
    else
      match ops[n - 1].op
      case ProgramChange(c, program) => if c == channel then program else ProgramAt(ops, n - 1, channel)
      case _ => ProgramAt(ops, n - 1, channel)
  }

  predicate Starts(op: TrackOp, k: nat) {
    op.NoteOn? && Key(op.channel, op.pitch) == k
  }

  predicate Stops(op: TrackOp, k: nat) {
    op.NoteOff? && Key(op.channel, op.pitch) == k
  }

  /** The note-ons of a channel and pitch, each under the program then current. */
  function StartsOf(ops: seq<TimedOp>, n: nat, k: nat): (s: seq<NoteStart>)
    requires n <= |ops|
  {
    if n == 0 then []
    else if Starts(ops[n - 1].op, k) then
      StartsOf(ops, n - 1, k)
        + [NoteStart(ops[n - 1].time, ops[n - 1].op.velocity, ProgramAt(ops, n - 1, ops[n - 1].op.channel))]
    else StartsOf(ops, n - 1, k)
  }

  /** The times of the note-offs that close something; orphans are skipped. */
  function StopsOf(ops: seq<TimedOp>, n: nat, k: nat): (s: seq<u64>)
    requires n <= |ops|
    ensures |s| <= |StartsOf(ops, n, k)|
  {
    if n == 0 then []
    else if Stops(ops[n - 1].op, k) && |StopsOf(ops, n - 1, k)| < |StartsOf(ops, n - 1, k)| then
      StopsOf(ops, n - 1, k) + [ops[n - 1].time]
    else StopsOf(ops, n - 1, k)
  }

  /** Where each of those note-ons was stored. */
  ghost function PlacesOf(ops: seq<TimedOp>, n: nat, k: nat): (s: seq<NoteRef>)
    requires Monotone(ops) && n <= |ops|
    ensures |s| == |StartsOf(ops, n, k)|
  {
    if n == 0 then []
    else if Starts(ops[n - 1].op, k) then
      PlacesOf(ops, n - 1, k) + [PlaceOf(ModelAt(ops, n - 1), ops[n - 1].op.channel, ops[n - 1].time)]
    else PlacesOf(ops, n - 1, k)
  }

  ghost function PlaceOf(m: Model, channel: u4, time: u64): NoteRef
    requires Valid(m)
  {
    var (m', g) := EnsureGroup(m, channel);
    NoteRef(g, |m'.groups[g].columns.notes|, time)
  }

  // ----- First in, first out

  /** The stored note of one start: in the group of its program, closed exactly if some stop is paired with it. */
  ghost predicate Stored(m: Model, k: nat, place: NoteRef, start: NoteStart, stop: Option<u64>) {
    && InRange(m, place)
    && KeyOfNote(m, place) == k
    && m.groups[place.group].program == start.program
    && place.time == start.time
    && NoteOf(m, place).time == start.time
    && NoteOf(m, place).velocity == start.velocity
    && match stop
       case None => NoteOf(m, place).duration == None
       case Some(time) => start.time <= time && NoteOf(m, place).duration == Some(time - start.time)
  }

  function StopOf(stops: seq<u64>, i: nat): Option<u64> {
    if i < |stops| then Some(stops[i]) else None
  }

  /** The i-th start is paired with the i-th effective stop; the unpaired ones wait in start order. */
  ghost predicate Paired(m: Model, k: nat, places: seq<NoteRef>, starts: seq<NoteStart>, stops: seq<u64>) {
    && k < |m.open|
    && |places| == |starts| && |stops| <= |starts|
    && m.open[k] == places[|stops|..]
    && (forall i, j :: 0 <= i < j < |places| ==> places[i] != places[j])
    && forall i :: 0 <= i < |places| ==> Stored(m, k, places[i], starts[i], StopOf(stops, i))
  }

  /** Operations other than note-offs keep every stored note; only note-ons extend a queue. */
  lemma ApplyGrown(m: Model, op: TrackOp, time: u64)
    requires Valid(m) && Apply(m, op, time).Ok? && !op.NoteOff?
    ensures Grown(m, Apply(m, op, time).value)
    ensures !op.NoteOn? ==> Apply(m, op, time).value.open == m.open
  {
    hide Queued, AddNote, EnsureGroup, Indexed;
    match op {
      case NoteOn(channel, pitch, velocity) => AddNoteValid(m, channel, pitch, velocity, time);
      case Lyric(text) => EnsureGroupValid(m, 0);
      case Control(channel, number, level) => AddControlValid(m, channel, time, number, level);
      case _ =>
    }
  }

  lemma PairedGrown(m: Model, m': Model, k: nat, places: seq<NoteRef>, starts: seq<NoteStart>, stops: seq<u64>)
    requires Paired(m, k, places, starts, stops) && Grown(m, m')
    requires k < |m'.open| && m'.open[k] == m.open[k]
    ensures Paired(m', k, places, starts, stops)
  {
    forall i | 0 <= i < |places| ensures Stored(m', k, places[i], starts[i], StopOf(stops, i)) {
      assert Stored(m, k, places[i], starts[i], StopOf(stops, i));
    }
  }

  lemma PairedStart(m: Model, channel: u4, pitch: u7, velocity: u7, time: u64,
                    places: seq<NoteRef>, starts: seq<NoteStart>, stops: seq<u64>)
    requires Valid(m) && Paired(m, Key(channel, pitch), places, starts, stops)
    ensures Paired(AddNote(m, channel, pitch, velocity, time), Key(channel, pitch),
                   places + [PlaceOf(m, channel, time)], starts + [NoteStart(time, velocity, m.programs[channel])], stops)
  {
    var k, place := Key(channel, pitch), PlaceOf(m, channel, time);
    var m1, m2 := EnsureGroup(m, channel).0, AddNote(m, channel, pitch, velocity, time);
    EnsureGroupValid(m, channel);
    AddNoteValid(m, channel, pitch, velocity, time);
    forall i | 0 <= i < |places|
      ensures Stored(m2, k, places[i], starts[i], StopOf(stops, i)) && places[i] != place
    {
      assert Stored(m, k, places[i], starts[i], StopOf(stops, i));
    }
    assert Stored(m2, k, place, NoteStart(time, velocity, m.programs[channel]), None);
  }

  lemma PairedStop(m: Model, channel: u4, pitch: u7, time: u64,
                   places: seq<NoteRef>, starts: seq<NoteStart>, stops: seq<u64>)
    requires Valid(m) && InOrder(m, time) && Paired(m, Key(channel, pitch), places, starts, stops)
    ensures Paired(EndNote(m, channel, pitch, time), Key(channel, pitch), places, starts,
                   if |stops| < |starts| then stops + [time] else stops)
  {
    var k := Key(channel, pitch);
    hide InOrder, Indexed, WrappingSub;
    if |stops| < |starts| {
      DurationExact(m, k, 0, time);
      var m' := EndNote(m, channel, pitch, time);
      var r := places[|stops|];
      assert m.open[k][0] == r && OpenAt(m, k, r);
      forall i | 0 <= i < |places| ensures Stored(m', k, places[i], starts[i], StopOf(stops + [time], i)) {
        assert Stored(m, k, places[i], starts[i], StopOf(stops, i));
        assert Stored(m, k, r, starts[|stops|], None);
        assert i != |stops| ==> places[i] != r;
      }
    }
  }

  /** A note-off of another channel or pitch touches none of these notes. */
  lemma PairedOtherStop(m: Model, channel: u4, pitch: u7, time: u64, k: nat,
                        places: seq<NoteRef>, starts: seq<NoteStart>, stops: seq<u64>)
    requires Valid(m) && Paired(m, k, places, starts, stops) && k != Key(channel, pitch)
    ensures Paired(EndNote(m, channel, pitch, time), k, places, starts, stops)
  {
    var other := Key(channel, pitch);
    if m.open[other] != [] {
      var m' := EndNote(m, channel, pitch, time);
      assert Queued(m, other, m.open[other]) && OpenAt(m, other, m.open[other][0]);
      forall i | 0 <= i < |places| ensures Stored(m', k, places[i], starts[i], StopOf(stops, i)) {
        assert Stored(m, k, places[i], starts[i], StopOf(stops, i));
      }
    }
  }

  lemma {:induction false} ProgramAtCorrect(ops: seq<TimedOp>, n: nat, channel: u4)
    requires Monotone(ops) && n <= |ops|
    ensures ModelAt(ops, n).programs[channel] == ProgramAt(ops, n, channel)
  {
    hide Apply, InOrder, Indexed, Queued, ModelAt, Monotone;
    if n == 0 {
      ModelStart(ops);
    } else {
      ProgramAtCorrect(ops, n - 1, channel);
      ModelStep(ops, n);
      ApplyPrograms(ModelAt(ops, n - 1), ops[n - 1].op, ops[n - 1].time);
    }
  }

  lemma ApplyPrograms(m: Model, op: TrackOp, time: u64)
    requires Valid(m) && Apply(m, op, time).Ok?
    ensures var programs := Apply(m, op, time).value.programs;
            programs == if op.ProgramChange? then m.programs[op.channel := op.program] else m.programs
  {
    hide Queued, Indexed;
  }

  lemma PairedStep(m: Model, op: TrackOp, time: u64, k: nat, places: seq<NoteRef>, starts: seq<NoteStart>, stops: seq<u64>)
    requires Valid(m) && InOrder(m, time) && Apply(m, op, time).Ok? && k < KEYS && Paired(m, k, places, starts, stops)
    ensures Paired(Apply(m, op, time).value, k,
                   if Starts(op, k) then places + [PlaceOf(m, op.channel, time)] else places,
                   if Starts(op, k) then starts + [NoteStart(time, op.velocity, m.programs[op.channel])] else starts,
                   if Stops(op, k) && |stops| < |starts| then stops + [time] else stops)
  {
    ApplyShape(m, op, time);
    hide Paired, InOrder, AddNote, EndNote, AddControl, AddPitchBend, AddLyric, HandlePedal, Queued, Indexed;
    if Starts(op, k) {
      PairedStart(m, op.channel, op.pitch, op.velocity, time, places, starts, stops);
    } else if Stops(op, k) {
      PairedStop(m, op.channel, op.pitch, time, places, starts, stops);
    } else if op.NoteOff? {
      PairedOtherStop(m, op.channel, op.pitch, time, k, places, starts, stops);
    } else {
      ApplyGrown(m, op, time);
      if op.NoteOn? {
        AddNoteOpen(m, op.channel, op.pitch, op.velocity, time);
      }
      PairedGrown(m, Apply(m, op, time).value, k, places, starts, stops);
    }
  }

  lemma ApplyShape(m: Model, op: TrackOp, time: u64)
    requires Valid(m) && Apply(m, op, time).Ok?
    ensures |m.open| == |Apply(m, op, time).value.open| == KEYS
  {
    ApplyValid(m, op, time);
  }

  lemma AddNoteOpen(m: Model, channel: u4, pitch: u7, velocity: u7, time: u64)
    requires Valid(m)
    ensures var m' := AddNote(m, channel, pitch, velocity, time);
            && |m'.open| == KEYS
            && forall k :: 0 <= k < KEYS && k != Key(channel, pitch) ==> m'.open[k] == m.open[k]
  {}

  lemma PairedEmpty(k: nat)
    requires k < KEYS
    ensures Paired(EmptyModel(), k, [], [], [])
  {}

  /**
    First in, first out, for every run and every channel and pitch: the i-th
    note-on is closed by the i-th effective note-off, with their exact distance
    as its duration, in the group of the program current at the note-on.
   */
  lemma {:induction false} NotesPairInOrder(ops: seq<TimedOp>, n: nat, k: nat)
    requires Monotone(ops) && n <= |ops| && k < KEYS
    ensures Paired(ModelAt(ops, n), k, PlacesOf(ops, n, k), StartsOf(ops, n, k), StopsOf(ops, n, k))
  {
    hide Paired, Apply, Valid, InOrder, EnsureGroup, ModelAt, Monotone;
    if n == 0 {
      ModelStart(ops);
      PairedEmpty(k);
    } else {
      NotesPairInOrder(ops, n - 1, k);
      ModelStep(ops, n);
      var m, op, time := ModelAt(ops, n - 1), ops[n - 1].op, ops[n - 1].time;
      if Starts(op, k) {
        ProgramAtCorrect(ops, n - 1, op.channel);
      }
      PairedStep(m, op, time, k, PlacesOf(ops, n - 1, k), StartsOf(ops, n - 1, k), StopsOf(ops, n - 1, k));
    }
  }
}
