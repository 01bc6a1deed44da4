/**
  The notes of every group after any run, said in terms of the operations alone:
  each note-on that some note-off is paired with, in the order of the note-ons.
 */
module TrackNotes {
  import opened Base
  import opened Smf
  import opened NoteColumns
  import opened ScoreTypes
  import opened TrackModel
  import opened TrackInvariants
  import opened TrackRuns
  import opened TrackGroups

  // ----- Finished notes

  /**
    The note that operation `i` starts on a channel while a program is current,
    if it is finished by operation `n`: the j-th note-on of its channel and pitch
    ends with the j-th note-off that found a note open there.
   */
  function FinishedBy(ops: seq<TimedOp>, n: nat, i: nat, channel: u4, program: u7): seq<TickNote>
    requires i < n <= |ops|
  {
    match ops[i].op
    case NoteOn(c, pitch, velocity) =>
      var key := Key(channel, pitch);
      var j, stops := |StartsOf(ops, i, key)|, StopsOf(ops, n, key);
      if c == channel && ProgramAt(ops, i, channel) == program && j < |stops| && ops[i].time <= stops[j] then
        [TickNote(ops[i].time, stops[j] - ops[i].time, pitch, velocity)]
      else []
    case _ => []
  }

  /** The finished notes among the first `k` operations, in the order of their note-ons. */
  function Finished(ops: seq<TimedOp>, n: nat, k: nat, channel: u4, program: u7): seq<TickNote>
    requires k <= n <= |ops|
  {
    if k == 0 then [] else Finished(ops, n, k - 1, channel, program) + FinishedBy(ops, n, k - 1, channel, program)
  }

  // ----- Where each note-on is stored

  lemma {:induction false} StartsPrefix(ops: seq<TimedOp>, i: nat, n: nat, k: nat)
    requires i < n <= |ops| && Starts(ops[i].op, k)
    ensures var j := |StartsOf(ops, i, k)|;
            && j < |StartsOf(ops, n, k)|
            && StartsOf(ops, n, k)[j]
               == NoteStart(ops[i].time, ops[i].op.velocity, ProgramAt(ops, i, ops[i].op.channel))
  {
    hide ProgramAt;
    if n > i + 1 {
      StartsPrefix(ops, i, n - 1, k);
    }
  }

  lemma {:induction false} PlacesPrefix(ops: seq<TimedOp>, i: nat, n: nat, k: nat)
    requires Monotone(ops) && i < n <= |ops| && Starts(ops[i].op, k)
    ensures var j := |StartsOf(ops, i, k)|;
            j < |PlacesOf(ops, n, k)| && PlacesOf(ops, n, k)[j] == PlaceOf(ModelAt(ops, i), ops[i].op.channel, ops[i].time)
  {
    hide ProgramAt, ModelAt, Monotone, PlaceOf, Valid, InOrder;
    if n > i + 1 {
      PlacesPrefix(ops, i, n - 1, k);
    }
  }

  // ----- Groups keep their channel and program

  ghost predicate KeysKept(m: Model, m': Model) {
    |m.groups| <= |m'.groups|
    && forall g :: 0 <= g < |m.groups| ==>
         m'.groups[g].channel == m.groups[g].channel && m'.groups[g].program == m.groups[g].program
  }

  lemma EndNoteKeepsKeys(m: Model, channel: u4, pitch: u7, time: u64)
    requires Valid(m)
    ensures KeysKept(m, EndNote(m, channel, pitch, time))
  {
    var k := Key(channel, pitch);
    if m.open[k] != [] {
      assert Queued(m, k, m.open[k]) && OpenAt(m, k, m.open[k][0]);
    }
  }

  lemma ApplyKeepsKeys(m: Model, op: TrackOp, time: u64)
    requires Valid(m) && Apply(m, op, time).Ok?
    ensures KeysKept(m, Apply(m, op, time).value)
  {
    hide Queued, Indexed, Shaped;
    match op {
      case NoteOn(channel, _, _) => EnsureGroupValid(m, channel);
      case NoteOff(channel, pitch) => EndNoteKeepsKeys(m, channel, pitch, time);
      case Control(channel, number, level) => AddControlValid(m, channel, time, number, level);
      case Lyric(_) => EnsureGroupValid(m, 0);
      case _ =>
    }
  }

  lemma {:induction false} RunKeepsKeys(ops: seq<TimedOp>, i: nat, n: nat)
    requires Monotone(ops) && i <= n <= |ops|
    ensures KeysKept(ModelAt(ops, i), ModelAt(ops, n))
  {
    hide Valid, InOrder, Apply, ModelAt, Monotone;
    if n > i {
      RunKeepsKeys(ops, i, n - 1);
      ModelStep(ops, n);
      ApplyKeepsKeys(ModelAt(ops, n - 1), ops[n - 1].op, ops[n - 1].time);
    }
  }

  /** A note-on is stored in its program's group, behind the notes struck there before. */
  lemma PlaceIs(ops: seq<TimedOp>, i: nat, channel: u4)
    requires Monotone(ops) && i < |ops|
    ensures var m, place := ModelAt(ops, i), PlaceOf(ModelAt(ops, i), channel, ops[i].time);
            var (m', g) := EnsureGroup(m, channel);
            && place == NoteRef(g, |NotesFor(ops, i, channel, ProgramAt(ops, i, channel))|, ops[i].time)
            && m'.groups[g].channel == channel && m'.groups[g].program == ProgramAt(ops, i, channel)
  {
    hide ModelAt, Monotone, InOrder, NotesFor, LyricsFor, ProgramAt, Queued;
    var program := ProgramAt(ops, i, channel);
    ProgramAtCorrect(ops, i, channel);
    GroupsHoldDeliveries(ops, i, channel, program);
  }

  lemma PlaceKept(ops: seq<TimedOp>, i: nat, n: nat)
    requires Monotone(ops) && i < n <= |ops| && ops[i].op.NoteOn?
    ensures var g, m := EnsureGroup(ModelAt(ops, i), ops[i].op.channel).1, ModelAt(ops, n);
            && g < |m.groups|
            && m.groups[g].channel == ops[i].op.channel && m.groups[g].program == ProgramAt(ops, i, ops[i].op.channel)
  {
    hide ModelAt, Monotone, InOrder, Queued, NotesFor, LyricsFor, ProgramAt;
    var op := ops[i].op;
    PlaceIs(ops, i, op.channel);
    ModelStep(ops, i + 1);
    EnsureGroupValid(ModelAt(ops, i), op.channel);
    RunKeepsKeys(ops, i + 1, n);
  }

  lemma IndexOfGroup(m: Model, g: nat)
    requires Valid(m) && g < |m.groups|
    ensures var key := Key(m.groups[g].channel, m.groups[g].program); key in m.index && m.index[key] == g
  {
    hide Queued, Shaped;
    assert m.groups[g].GroupKey() == Key(m.groups[g].channel, m.groups[g].program);
  }

  /** Each note-on is the next note of its group, finished by its own note-off if that came. */
  lemma NoteAt(ops: seq<TimedOp>, n: nat, i: nat)
    requires Monotone(ops) && i < n <= |ops| && ops[i].op.NoteOn?
    ensures var op, m := ops[i].op, ModelAt(ops, n);
            var program, key := ProgramAt(ops, i, op.channel), Key(op.channel, op.pitch);
            var j, stops, p := |StartsOf(ops, i, key)|, StopsOf(ops, n, key), |NotesFor(ops, i, op.channel, program)|;
            && Key(op.channel, program) in m.index && m.index[Key(op.channel, program)] < |m.groups|
            && var notes := m.groups[m.index[Key(op.channel, program)]].columns.notes;
            && p < |notes| && (j < |stops| ==> ops[i].time <= stops[j])
            && notes[p] == OpenNote(ops[i].time, if j < |stops| then Some(stops[j] - ops[i].time) else None, op.pitch, op.velocity)
  {
    hide ModelAt, Monotone, InOrder, Valid, EnsureGroup, NotesFor, StartsOf, StopsOf, PlacesOf, ProgramAt, Starts;
    var op, m := ops[i].op, ModelAt(ops, n);
    var key := Key(op.channel, op.pitch);
    StartsHere(ops, i);
    NotesPairInOrder(ops, n, key);
    StartsPrefix(ops, i, n, key);
    PlacesPrefix(ops, i, n, key);
    PlaceIs(ops, i, op.channel);
    PlaceKept(ops, i, n);
    var j := |StartsOf(ops, i, key)|;
    IndexOfGroup(m, PlacesOf(ops, n, key)[j].group);
    assert Stored(m, key, PlacesOf(ops, n, key)[j], StartsOf(ops, n, key)[j], StopOf(StopsOf(ops, n, key), j));
  }

  lemma StartsHere(ops: seq<TimedOp>, i: nat)
    requires i < |ops| && ops[i].op.NoteOn?
    ensures Starts(ops[i].op, Key(ops[i].op.channel, ops[i].op.pitch))
  {}

  lemma NotesForStep(ops: seq<TimedOp>, k: nat, channel: u4, program: u7)
    requires 0 < k <= |ops|
    ensures var op := ops[k - 1].op;
            |NotesFor(ops, k, channel, program)| == |NotesFor(ops, k - 1, channel, program)|
              + if op.NoteOn? && op.channel == channel && ProgramAt(ops, k - 1, channel) == program then 1 else 0
  {
    hide ProgramAt;
  }

  lemma CompletedStep(notes: seq<OpenNote>, p: nat)
    requires p < |notes|
    ensures CompletedUpTo(notes, p + 1) == CompletedUpTo(notes, p) + CompletedAt(notes[p])
  {}

  function CompletedAt(note: OpenNote): seq<TickNote> {
    if note.duration.None? then [] else [TickNote(note.time, note.duration.value, note.pitch, note.velocity)]
  }

  lemma FinishedStep(ops: seq<TimedOp>, n: nat, k: nat, channel: u4, program: u7)
    requires k < n <= |ops|
    ensures Finished(ops, n, k + 1, channel, program)
         == Finished(ops, n, k, channel, program) + FinishedBy(ops, n, k, channel, program)
  {
    hide FinishedBy;
  }

  /** The notes of a group of some state; none if there is no such group. */
  ghost function GroupNotes(m: Model, channel: u4, program: u7): seq<OpenNote>
    requires Valid(m)
  {
    if Key(channel, program) in m.index then m.groups[m.index[Key(channel, program)]].columns.notes else []
  }

  /** An operation finishes the next note of a group, or touches no note of it. */
  lemma FinishedByIs(ops: seq<TimedOp>, n: nat, i: nat, channel: u4, program: u7)
    requires Monotone(ops) && i < n <= |ops|
    ensures var notes, p, q := GroupNotes(ModelAt(ops, n), channel, program), |NotesFor(ops, i, channel, program)|,
                               |NotesFor(ops, i + 1, channel, program)|;
            if p < q then q == p + 1 <= |notes| && FinishedBy(ops, n, i, channel, program) == CompletedAt(notes[p])
            else p == q && FinishedBy(ops, n, i, channel, program) == []
  {
    hide ModelAt, Monotone, InOrder, Valid, NotesFor, StartsOf, StopsOf, ProgramAt;
    NotesForStep(ops, i + 1, channel, program);
    if ops[i].op.NoteOn? {
      NoteAt(ops, n, i);
    }
  }

  lemma {:induction false} FinishedUpTo(ops: seq<TimedOp>, n: nat, k: nat, channel: u4, program: u7)
    requires Monotone(ops) && k <= n <= |ops|
    ensures var notes, p := GroupNotes(ModelAt(ops, n), channel, program), |NotesFor(ops, k, channel, program)|;
            p <= |notes| && CompletedUpTo(notes, p) == Finished(ops, n, k, channel, program)
  {
    hide ModelAt, Monotone, InOrder, Valid, NotesFor, GroupNotes, Finished, FinishedBy, CompletedUpTo, CompletedAt;
    if k == 0 {
      NothingFinished(ops, n, channel, program, GroupNotes(ModelAt(ops, n), channel, program));
    } else {
      FinishedUpTo(ops, n, k - 1, channel, program);
      FinishedStep(ops, n, k - 1, channel, program);
      FinishedByIs(ops, n, k - 1, channel, program);
      var p := |NotesFor(ops, k - 1, channel, program)|;
      if p < |NotesFor(ops, k, channel, program)| {
        CompletedStep(GroupNotes(ModelAt(ops, n), channel, program), p);
      }
    }
  }

  lemma NothingFinished(ops: seq<TimedOp>, n: nat, channel: u4, program: u7, notes: seq<OpenNote>)
    requires n <= |ops|
    ensures NotesFor(ops, 0, channel, program) == [] && Finished(ops, n, 0, channel, program) == [] && CompletedUpTo(notes, 0) == []
  {}

  /**
    After any run the completed notes of every group are exactly the finished
    notes of its channel and program: each note-on with a note-off of its own, in
    note-on order, with its own start, pitch and velocity and the exact distance
    to that note-off.
   */
  lemma GroupNotesFinished(ops: seq<TimedOp>, n: nat, channel: u4, program: u7)
    requires Monotone(ops) && n <= |ops| && Key(channel, program) in ModelAt(ops, n).index
    ensures var m := ModelAt(ops, n);
            && m.index[Key(channel, program)] < |m.groups|
            && CompletedNotes(m.groups[m.index[Key(channel, program)]].columns.notes) == Finished(ops, n, n, channel, program)
  {
    hide ModelAt, Monotone, InOrder, Queued, NotesFor, LyricsFor, Finished, CompletedUpTo;
    GroupsHoldDeliveries(ops, n, channel, program);
    var m := ModelAt(ops, n);
    FinishedUpTo(ops, n, n, channel, program);
  }
}
