/** What the score parser makes of a generated track, row by row. */
module CorpusScores {
  import opened Base
  import opened Smf
  import opened Wire
  import opened NoteColumns
  import opened ScoreTypes
  import opened TrackModel
  import opened TrackInvariants
  import opened Scores
  import opened ScoreGrammar
  import opened Printer
  import Utf8

  // ----- A track that uses one channel and one program

  /**
    All queues are empty, the sustain pedal was pressed at tick zero if `held`,
    and the channel's current group (or stragglers, before the first note) has
    these many rows, all of them completed.
   */
  ghost predicate Solo(m: Model, channel: u4, program: u7, notes: nat, controls: nat, bends: nat, pedals: nat, held: bool) {
    && Valid(m)
    && (forall k :: 0 <= k < KEYS ==> m.open[k] == [])
    && m.programs[channel] == program
    && m.pedalStarts[channel] == (if held then Some(0) else None)
    && (if notes == 0 then m.groups == [] else |m.groups| == 1 && Target(m, channel) == Some(0))
    && var g := Current(m, channel);
    && |g.columns.notes| == notes && |g.controls| == controls && |g.pitchBends| == bends && |g.pedals| == pedals
    && g.lyrics == []
    && forall i :: 0 <= i < notes ==> g.columns.notes[i].duration.Some?
  }

  lemma SoloIsValid(m: Model, channel: u4, program: u7, notes: nat, controls: nat, bends: nat, pedals: nat, held: bool)
    requires Solo(m, channel, program, notes, controls, bends, pedals, held)
    ensures Valid(m)
  {}

  lemma SoloStart(channel: u4, program: u7)
    ensures Solo(TrackModel.SetProgram(StartModel(), channel, program), channel, program, 0, 0, 0, 0, false)
  {
    var m := TrackModel.SetProgram(StartModel(), channel, program);
    ValidWithout(StartModel(), m);
  }

  function StartModel(): (m: Model)
    ensures Valid(m) && m == EmptyModel()
  {
    EmptyModelValid();
    EmptyModel()
  }

  lemma SoloControl(m: Model, channel: u4, program: u7, time: u64, number: u7, level: u7,
                    notes: nat, controls: nat, bends: nat, pedals: nat, held: bool)
    requires Solo(m, channel, program, notes, controls, bends, pedals, held)
    ensures Solo(AddControl(m, channel, time, number, level), channel, program, notes, controls + 1, bends, pedals, held)
  {
    hide Queued;
    AddControlValid(m, channel, time, number, level);
  }

  lemma SoloBend(m: Model, channel: u4, program: u7, time: u64, value: i16,
                 notes: nat, controls: nat, bends: nat, pedals: nat, held: bool)
    requires Solo(m, channel, program, notes, controls, bends, pedals, held)
    ensures Solo(AddPitchBend(m, channel, time, value), channel, program, notes, controls, bends + 1, pedals, held)
  {
    hide Queued;
    AddPitchBendValid(m, channel, time, value);
  }

  lemma SoloHold(m: Model, channel: u4, program: u7, level: u7, notes: nat, controls: nat, bends: nat, pedals: nat)
    requires Solo(m, channel, program, notes, controls, bends, pedals, false) && level >= 64
    ensures HandlePedal(m, channel, 0, level).Ok?
    ensures Solo(HandlePedal(m, channel, 0, level).value, channel, program, notes, controls, bends, pedals, true)
  {
    hide Queued;
    HandlePedalValid(m, channel, 0, level);
  }

  lemma SoloRelease(m: Model, channel: u4, program: u7, time: u64, level: u7, notes: nat, controls: nat, bends: nat, pedals: nat)
    requires Solo(m, channel, program, notes, controls, bends, pedals, true) && level < 64
    ensures HandlePedal(m, channel, time, level).Ok?
    ensures Solo(HandlePedal(m, channel, time, level).value, channel, program, notes, controls, bends, pedals + 1, false)
  {
    hide Queued;
    HandlePedalValid(m, channel, time, level);
  }

  /** A note-on and its note-off add one completed note and leave no queue behind. */
  lemma SoloNote(m: Model, channel: u4, program: u7, pitch: u7, velocity: u7, start: u64, stop: u64,
                 notes: nat, controls: nat, bends: nat, pedals: nat, held: bool)
    requires Solo(m, channel, program, notes, controls, bends, pedals, held)
    ensures Valid(AddNote(m, channel, pitch, velocity, start))
    ensures var m' := EndNote(AddNote(m, channel, pitch, velocity, start), channel, pitch, stop);
            Solo(m', channel, program, notes + 1, controls, bends, pedals, held)
  {
    hide Queued;
    AddNoteValid(m, channel, pitch, velocity, start);
    var m1 := AddNote(m, channel, pitch, velocity, start);
    EndNoteValid(m1, channel, pitch, stop);
    var m2 := EndNote(m1, channel, pitch, stop);
    var key := Key(channel, pitch);
    assert m1.open[key] == [NoteRef(0, notes, start)];
    assert |m2.groups| == 1 && Target(m2, channel) == Some(0);
  }

  // ----- Running messages

  function NoteOnCount(ms: seq<Message>): nat {
    if ms == [] then 0
    else NoteOnCount(ms[1..]) + if IsNoteOn(ms[0].event) then 1 else 0
  }

  predicate IsNoteOn(event: Event) {
    event.Channel? && OpOf(event.status, event.first, event.second).NoteOn?
  }

  function TextLength(ms: seq<Message>): nat {
    if ms == [] then 0 else TextLength(ms[1..]) + |PayloadOf(ms[0].event)|
  }

  function Ticks(ms: seq<Message>): nat {
    if ms == [] then 0 else Ticks(ms[1..]) + ms[0].delta
  }

  /** The budget and the 32- and 64-bit fields have room for the messages still to come. */
  predicate Room(policy: Policy, run: Run, ms: seq<Message>) {
    && |run.score.textData| + TextLength(ms) <= U32_MAX
    && run.time + Ticks(ms) <= U64_MAX
    && (policy.Some? ==>
          && run.events + |ms| <= policy.value.maxEvents
          && run.noteStarts + NoteOnCount(ms) <= policy.value.maxNoteStarts
          && |run.score.textData| + TextLength(ms) <= policy.value.maxTextBytes)
  }

  /** Between two points of a run: what was charged and appended is what the messages in between carry. */
  ghost predicate Accounts(run: Run, ms: seq<Message>, run': Run, left: seq<Message>) {
    && run'.events + |left| == run.events + |ms|
    && run'.noteStarts + NoteOnCount(left) == run.noteStarts + NoteOnCount(ms)
    && |run'.score.textData| + TextLength(left) == |run.score.textData| + TextLength(ms)
    && run'.score == run.score.(textData := run'.score.textData, markers := run'.score.markers)
  }

  lemma UnfoldRun(policy: Policy, grammar: Grammar, t: Trace, m: Message, rest: seq<Message>, run: Run, trackEnd: nat)
    requires Valid(run.model) && Decodes(t, [m] + rest) && run.time + m.delta <= U64_MAX
    requires !(grammar.StopsAtEndOfTrack() && IsEndOfTrack(m.event))
    ensures t.Step? && t.head.event == m.event && Decodes(t.rest, rest)
    ensures var r := Perform(policy, run.(time := run.time + m.delta), t.head);
            r.Ok? ==>
              && Valid(r.value.model)
              && RunTrace(policy, grammar, t, run, trackEnd) == RunTrace(policy, grammar, t.rest, r.value, trackEnd)
  {
    hide Valid, Perform;
    assert ([m] + rest)[0] == m && ([m] + rest)[1..] == rest;
    PerformValid(policy, run.(time := run.time + m.delta), t.head);
  }

  lemma UnfoldTotals(m: Message, rest: seq<Message>)
    ensures TextLength([m] + rest) == TextLength(rest) + |PayloadOf(m.event)|
    ensures Ticks([m] + rest) == Ticks(rest) + m.delta
    ensures NoteOnCount([m] + rest) == NoteOnCount(rest) + if IsNoteOn(m.event) then 1 else 0
  {
    assert ([m] + rest)[0] == m && ([m] + rest)[1..] == rest;
  }

  /** A channel message whose operation succeeds: charged, applied, nothing else. */
  lemma RunChannel(policy: Policy, grammar: Grammar, t: Trace, m: Message, rest: seq<Message>, run: Run, trackEnd: nat)
    returns (run': Run)
    requires Valid(run.model) && Decodes(t, [m] + rest) && m.event.Channel? && Room(policy, run, [m] + rest)
    requires Apply(run.model, OpOf(m.event.status, m.event.first, m.event.second), run.time + m.delta).Ok?
    ensures t.Step? && Decodes(t.rest, rest) && Room(policy, run', rest) && Valid(run'.model)
    ensures RunTrace(policy, grammar, t, run, trackEnd) == RunTrace(policy, grammar, t.rest, run', trackEnd)
    ensures run' == run.(time := run.time + m.delta, events := run.events + 1,
                         noteStarts := run.noteStarts + if IsNoteOn(m.event) then 1 else 0,
                         model := Apply(run.model, OpOf(m.event.status, m.event.first, m.event.second), run.time + m.delta).value)
    ensures Accounts(run, [m] + rest, run', rest)
  {
    hide Valid, Apply, RunTrace, Decodes;
    UnfoldTotals(m, rest);
    UnfoldRun(policy, grammar, t, m, rest, run, trackEnd);
    run' := Perform(policy, run.(time := run.time + m.delta), t.head).value;
  }

  /** A track name or a marker in ASCII: its bytes are appended as they are. */
  lemma RunText(policy: Policy, grammar: Grammar, t: Trace, m: Message, rest: seq<Message>, run: Run, trackEnd: nat)
    returns (run': Run)
    requires Valid(run.model) && Decodes(t, [m] + rest) && Room(policy, run, [m] + rest)
    requires m.event.Meta? && m.event.metaType in {0x03, 0x06} && m.event.payload != []
    requires Utf8.Valid(m.event.payload)
    ensures t.Step? && Decodes(t.rest, rest) && Room(policy, run', rest) && Valid(run'.model)
    ensures RunTrace(policy, grammar, t, run, trackEnd) == RunTrace(policy, grammar, t.rest, run', trackEnd)
    ensures run'.model == run.model && run'.time == run.time + m.delta
    ensures run'.events == run.events + 1 && run'.noteStarts == run.noteStarts
    ensures run'.score == run.score.(textData := run.score.textData + m.event.payload, markers := run'.score.markers)
    ensures |run'.score.markers| == |run.score.markers| + if m.event.metaType == 0x06 then 1 else 0
    ensures Accounts(run, [m] + rest, run', rest)
  {
    hide Valid, RunTrace, Decodes, Utf8.Normalize;
    UnfoldTotals(m, rest);
    UnfoldRun(policy, grammar, t, m, rest, run, trackEnd);
    Utf8.NormalizeKeepsValid(m.event.payload);
    run' := Perform(policy, run.(time := run.time + m.delta), t.head).value;
  }

  /** The empty End-of-Track at the very end, which every grammar accepts. */
  lemma RunEnd(policy: Policy, grammar: Grammar, t: Trace, m: Message, run: Run, trackEnd: nat)
    requires Valid(run.model) && Decodes(t, [m]) && Room(policy, run, [m])
    requires m.event == Event.Meta(END_OF_TRACK, [])
    ensures RunTrace(policy, grammar, t, run, trackEnd) == Ok(run.(time := run.time + m.delta, events := run.events + 1))
  {
    hide Valid;
    UnfoldTotals(m, []);
    assert [m] + [] == [m] && [m][1..] == [];
    assert t.Step? && t.rest.End? && t.head.remaining == 0;
    if !grammar.StopsAtEndOfTrack() {
      UnfoldRun(policy, grammar, t, m, [], run, trackEnd);
    }
  }
}
