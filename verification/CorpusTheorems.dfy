/** Generated files against the score parser, for every grammar and every sufficient budget. */
module CorpusTheorems {
  import opened Base
  import opened Smf
  import opened Wire
  import opened NoteColumns
  import opened ScoreTypes
  import opened TrackModel
  import opened TrackInvariants
  import opened Scores
  import opened ScoreEmission
  import opened ScoreGrammar
  import opened Printer
  import opened Corpus
  import opened CorpusDecoding
  import opened CorpusScores
  import opened VlqCodec
  import Utf8

  lemma {:induction false} AsciiIsUtf8(s: Bytes)
    requires Ascii(s)
    ensures Utf8.Valid(s)
    decreases |s|
  {
    if s != [] {
      AsciiIsUtf8(s[1..]);
    }
  }

  function CeilDiv(n: nat, d: nat): nat
    requires d > 0
  {
    (n + d - 1) / d
  }

  lemma CeilDivStep(n: nat)
    ensures CeilDiv(n + 1, 64) == CeilDiv(n, 64) + if n % 64 == 0 then 1 else 0
    ensures CeilDiv(n + 1, 256) == CeilDiv(n, 256) + if n % 256 == 0 then 1 else 0
    ensures CeilDiv(n + 1, 512) == CeilDiv(n, 512) + if n % 512 == 0 then 1 else 0
  {
    hide CeilDiv;
    CeilDivStep64(n);
    CeilDivStep256(n);
    CeilDivStep512(n);
  }

  lemma CeilDivStep64(n: nat)
    ensures CeilDiv(n + 1, 64) == CeilDiv(n, 64) + if n % 64 == 0 then 1 else 0
  {
    var q, r := n / 64, n % 64;
    assert n + 63 == 64 * q + (r + 63) && n + 64 == 64 * (q + 1) + r;
  }

  lemma CeilDivStep256(n: nat)
    ensures CeilDiv(n + 1, 256) == CeilDiv(n, 256) + if n % 256 == 0 then 1 else 0
  {
    var q, r := n / 256, n % 256;
    assert n + 255 == 256 * q + (r + 255) && n + 256 == 256 * (q + 1) + r;
  }

  lemma CeilDivStep512(n: nat)
    ensures CeilDiv(n + 1, 512) == CeilDiv(n, 512) + if n % 512 == 0 then 1 else 0
  {
    var q, r := n / 512, n % 512;
    assert n + 511 == 512 * q + (r + 511) && n + 512 == 512 * (q + 1) + r;
  }

  // ----- One block

  lemma MarkerRuns(policy: Policy, grammar: Grammar, t: Trace, index: u32, rest: seq<Message>, run: Run, trackEnd: nat)
    returns (run': Run)
    requires Valid(run.model) && Decodes(t, [MarkerAt(index)] + rest) && Room(policy, run, [MarkerAt(index)] + rest)
    ensures t.Step? && Decodes(t.rest, rest) && Room(policy, run', rest) && run'.model == run.model
    ensures RunTrace(policy, grammar, t, run, trackEnd) == RunTrace(policy, grammar, t.rest, run', trackEnd)
    ensures |run'.score.markers| == |run.score.markers| + 1
    ensures Accounts(run, [MarkerAt(index)] + rest, run', rest)
  {
    hide Valid, Room, Accounts, RunTrace, Decodes;
    AsciiIsUtf8(MarkerName(index));
    run' := RunText(policy, grammar, t, MarkerAt(index), rest, run, trackEnd);
  }

  lemma BendRuns(policy: Policy, grammar: Grammar, t: Trace, trackIndex: u16, index: u32, rest: seq<Message>, run: Run, trackEnd: nat,
                 notes: nat, controls: nat, bends: nat)
    returns (run': Run)
    requires Decodes(t, [BendAt(trackIndex, index)] + rest) && Room(policy, run, [BendAt(trackIndex, index)] + rest)
    requires Solo(run.model, ChannelOf(trackIndex), ProgramOf(trackIndex), notes, controls, bends, 0, true)
    ensures t.Step? && Decodes(t.rest, rest) && Room(policy, run', rest)
    ensures Solo(run'.model, ChannelOf(trackIndex), ProgramOf(trackIndex), notes, controls, bends + 1, 0, true)
    ensures RunTrace(policy, grammar, t, run, trackEnd) == RunTrace(policy, grammar, t.rest, run', trackEnd)
    ensures Accounts(run, [BendAt(trackIndex, index)] + rest, run', rest) && run'.score == run.score
  {
    hide Valid, Room, Accounts, RunTrace, Decodes, AddPitchBend;
    var event := BendAt(trackIndex, index).event;
    var op := OpOf(event.status, event.first, event.second);
    assert op.PitchBend? && op.channel == ChannelOf(trackIndex);
    SoloBend(run.model, ChannelOf(trackIndex), ProgramOf(trackIndex), run.time, op.bend, notes, controls, bends, 0, true);
    run' := RunChannel(policy, grammar, t, BendAt(trackIndex, index), rest, run, trackEnd);
  }

  lemma ControlRuns(policy: Policy, grammar: Grammar, t: Trace, trackIndex: u16, index: u32, rest: seq<Message>, run: Run, trackEnd: nat,
                    notes: nat, controls: nat, bends: nat)
    returns (run': Run)
    requires Decodes(t, [ControlAt(trackIndex, index)] + rest) && Room(policy, run, [ControlAt(trackIndex, index)] + rest)
    requires Solo(run.model, ChannelOf(trackIndex), ProgramOf(trackIndex), notes, controls, bends, 0, true)
    ensures t.Step? && Decodes(t.rest, rest) && Room(policy, run', rest)
    ensures Solo(run'.model, ChannelOf(trackIndex), ProgramOf(trackIndex), notes, controls + 1, bends, 0, true)
    ensures RunTrace(policy, grammar, t, run, trackEnd) == RunTrace(policy, grammar, t.rest, run', trackEnd)
    ensures Accounts(run, [ControlAt(trackIndex, index)] + rest, run', rest) && run'.score == run.score
  {
    hide Valid, Room, Accounts, RunTrace, Decodes, AddControl, HandlePedal;
    var event := ControlAt(trackIndex, index).event;
    var op := OpOf(event.status, event.first, event.second);
    assert op == TrackOp.Control(ChannelOf(trackIndex), ControllerOf(index), index % 128);
    SoloControl(run.model, ChannelOf(trackIndex), ProgramOf(trackIndex), run.time, op.number, op.level, notes, controls, bends, 0, true);
    run' := RunChannel(policy, grammar, t, ControlAt(trackIndex, index), rest, run, trackEnd);
  }

  lemma NoteRuns(policy: Policy, grammar: Grammar, t: Trace, trackIndex: u16, index: u32, rest: seq<Message>, run: Run, trackEnd: nat,
                 notes: nat, controls: nat, bends: nat)
    returns (run': Run)
    requires Decodes(t, [NoteOnAt(trackIndex, index)] + ([NoteOffAt(trackIndex, index)] + rest))
    requires Room(policy, run, [NoteOnAt(trackIndex, index)] + ([NoteOffAt(trackIndex, index)] + rest))
    requires Solo(run.model, ChannelOf(trackIndex), ProgramOf(trackIndex), notes, controls, bends, 0, true)
    ensures t.Step? && t.rest.Step? && Decodes(t.rest.rest, rest) && Room(policy, run', rest)
    ensures Solo(run'.model, ChannelOf(trackIndex), ProgramOf(trackIndex), notes + 1, controls, bends, 0, true)
    ensures RunTrace(policy, grammar, t, run, trackEnd) == RunTrace(policy, grammar, t.rest.rest, run', trackEnd)
    ensures Accounts(run, [NoteOnAt(trackIndex, index)] + ([NoteOffAt(trackIndex, index)] + rest), run', rest)
    ensures run'.score == run.score
  {
    hide Valid, RunTrace, Decodes, AddNote, EndNote;
    var on, off := NoteOnAt(trackIndex, index), NoteOffAt(trackIndex, index);
    var c, pitch, velocity := ChannelOf(trackIndex), PitchOf(trackIndex, index), VelocityOf(trackIndex, index);
    assert OpOf(on.event.status, on.event.first, on.event.second) == NoteOn(c, pitch, velocity);
    assert OpOf(off.event.status, off.event.first, off.event.second) == NoteOff(c, pitch);
    UnfoldTotals(on, [off] + rest);
    UnfoldTotals(off, rest);
    SoloNote(run.model, c, ProgramOf(trackIndex), pitch, velocity, run.time + on.delta, run.time + on.delta + off.delta,
             notes, controls, bends, 0, true);
    var started := RunChannel(policy, grammar, t, on, [off] + rest, run, trackEnd);
    run' := RunChannel(policy, grammar, t.rest, off, rest, started, trackEnd);
  }

  lemma ExtrasRun(policy: Policy, grammar: Grammar, t: Trace, trackIndex: u16, index: u32, rest: seq<Message>, run: Run, trackEnd: nat,
                  notes: nat, controls: nat, bends: nat)
    returns (t': Trace, run': Run)
    requires Decodes(t, Extras(trackIndex, index) + rest) && Room(policy, run, Extras(trackIndex, index) + rest)
    requires Solo(run.model, ChannelOf(trackIndex), ProgramOf(trackIndex), notes, controls, bends, 0, true)
    ensures Decodes(t', rest) && Room(policy, run', rest)
    ensures Solo(run'.model, ChannelOf(trackIndex), ProgramOf(trackIndex), notes,
                 controls + (if index % 64 == 0 then 1 else 0), bends + (if index % 256 == 0 then 1 else 0), 0, true)
    ensures RunTrace(policy, grammar, t, run, trackEnd) == RunTrace(policy, grammar, t', run', trackEnd)
    ensures Accounts(run, Extras(trackIndex, index) + rest, run', rest)
    ensures |run'.score.markers| == |run.score.markers| + if index % 512 == 0 then 1 else 0
  {
    hide Solo, Room, RunTrace, Decodes, ControlAt, BendAt, MarkerAt, NoteOnCount, TextLength;
    Cadence(index);
    var control, bend, marker := ControlAt(trackIndex, index), BendAt(trackIndex, index), MarkerAt(index);
    t', run' := t, run;
    if index % 64 != 0 {
      assert Extras(trackIndex, index) + rest == rest;
    } else {
      var afterBend := if index % 512 == 0 then [marker] + rest else rest;
      var afterControl := if index % 256 == 0 then [bend] + afterBend else rest;
      assert Extras(trackIndex, index) + rest == [control] + afterControl;
      run' := ControlRuns(policy, grammar, t', trackIndex, index, afterControl, run', trackEnd, notes, controls, bends);
      t' := t'.rest;
      if index % 256 == 0 {
        run' := BendRuns(policy, grammar, t', trackIndex, index, afterBend, run', trackEnd, notes, controls + 1, bends);
        t' := t'.rest;
        if index % 512 == 0 {
          SoloIsValid(run'.model, ChannelOf(trackIndex), ProgramOf(trackIndex), notes, controls + 1, bends + 1, 0, true);
          run' := MarkerRuns(policy, grammar, t', index, rest, run', trackEnd);
          t' := t'.rest;
        }
      }
    }
  }

  /** The blocks of a track: one note each, and the extras at their cadence. */
  lemma {:induction false} BlocksRun(policy: Policy, grammar: Grammar, t: Trace, trackIndex: u16, first: nat, notes: u32, run: Run, trackEnd: nat)
    returns (t': Trace, run': Run)
    requires first <= notes
    requires Decodes(t, Blocks(trackIndex, first, notes) + Outro(trackIndex))
    requires Room(policy, run, Blocks(trackIndex, first, notes) + Outro(trackIndex))
    requires Solo(run.model, ChannelOf(trackIndex), ProgramOf(trackIndex), first, 1 + CeilDiv(first, 64), CeilDiv(first, 256), 0, true)
    ensures Decodes(t', Outro(trackIndex)) && Room(policy, run', Outro(trackIndex))
    ensures Solo(run'.model, ChannelOf(trackIndex), ProgramOf(trackIndex), notes, 1 + CeilDiv(notes, 64), CeilDiv(notes, 256), 0, true)
    ensures RunTrace(policy, grammar, t, run, trackEnd) == RunTrace(policy, grammar, t', run', trackEnd)
    ensures Accounts(run, Blocks(trackIndex, first, notes) + Outro(trackIndex), run', Outro(trackIndex))
    ensures |run'.score.markers| + CeilDiv(first, 512) == |run.score.markers| + CeilDiv(notes, 512)
    decreases notes - first
  {
    hide Solo, Room, RunTrace, Decodes, Extras, NoteOnAt, NoteOffAt, Outro, NoteOnCount, TextLength, CeilDiv, Blocks;
    if first == notes {
      BlocksDone(trackIndex, notes);
      assert Blocks(trackIndex, first, notes) + Outro(trackIndex) == Outro(trackIndex);
      t', run' := t, run;
    } else {
      var on, off, extras := NoteOnAt(trackIndex, first), NoteOffAt(trackIndex, first), Extras(trackIndex, first);
      var rest := Blocks(trackIndex, first + 1, notes) + Outro(trackIndex);
      BlocksUnfold(trackIndex, first, notes, Outro(trackIndex));
      CeilDivStep(first);
      var noted := NoteRuns(policy, grammar, t, trackIndex, first, extras + rest, run, trackEnd,
                            first, 1 + CeilDiv(first, 64), CeilDiv(first, 256));
      var t1, extended := ExtrasRun(policy, grammar, t.rest.rest, trackIndex, first, rest, noted, trackEnd,
                                    first + 1, 1 + CeilDiv(first, 64), CeilDiv(first, 256));
      t', run' := BlocksRun(policy, grammar, t1, trackIndex, first + 1, notes, extended, trackEnd);
    }
  }

  // ----- One track

  lemma IntroRuns(policy: Policy, grammar: Grammar, t: Trace, trackIndex: u16, rest: seq<Message>, run: Run, trackEnd: nat)
    returns (t': Trace, run': Run)
    requires Decodes(t, Intro(trackIndex) + rest) && Room(policy, run, Intro(trackIndex) + rest)
    requires run.model == StartModel() && run.time == 0
    ensures Decodes(t', rest) && Room(policy, run', rest)
    ensures Solo(run'.model, ChannelOf(trackIndex), ProgramOf(trackIndex), 0, 1, 0, 0, true)
    ensures RunTrace(policy, grammar, t, run, trackEnd) == RunTrace(policy, grammar, t', run', trackEnd)
    ensures Accounts(run, Intro(trackIndex) + rest, run', rest) && |run'.score.markers| == |run.score.markers|
  {
    hide Solo, Room, RunTrace, Decodes, NoteOnCount, TextLength, AddControl, HandlePedal, TrackModel.SetProgram;
    var name, program, pedal := Intro(trackIndex)[0], Intro(trackIndex)[1], Intro(trackIndex)[2];
    var c, p := ChannelOf(trackIndex), ProgramOf(trackIndex);
    assert Intro(trackIndex) + rest == [name] + ([program] + ([pedal] + rest));
    assert OpOf(program.event.status, program.event.first, program.event.second) == ProgramChange(c, p);
    assert OpOf(pedal.event.status, pedal.event.first, pedal.event.second) == TrackOp.Control(c, 64, 127);
    AsciiIsUtf8(TrackName(trackIndex));
    var named := RunText(policy, grammar, t, name, [program] + ([pedal] + rest), run, trackEnd);
    SoloStart(c, p);
    var patched := RunChannel(policy, grammar, t.rest, program, [pedal] + rest, named, trackEnd);
    SoloIsValid(patched.model, c, p, 0, 0, 0, 0, false);
    SoloControl(patched.model, c, p, 0, 64, 127, 0, 0, 0, 0, false);
    SoloHold(AddControl(patched.model, c, 0, 64, 127), c, p, 127, 0, 1, 0, 0);
    run' := RunChannel(policy, grammar, t.rest.rest, pedal, rest, patched, trackEnd);
    t' := t.rest.rest.rest;
  }

  lemma OutroRuns(policy: Policy, grammar: Grammar, t: Trace, trackIndex: u16, run: Run, trackEnd: nat, notes: nat, controls: nat, bends: nat)
    returns (run': Run)
    requires Decodes(t, Outro(trackIndex)) && Room(policy, run, Outro(trackIndex))
    requires Solo(run.model, ChannelOf(trackIndex), ProgramOf(trackIndex), notes, controls, bends, 0, true)
    ensures Solo(run'.model, ChannelOf(trackIndex), ProgramOf(trackIndex), notes, controls + 1, bends, 1, false)
    ensures RunTrace(policy, grammar, t, run, trackEnd) == Ok(run')
    ensures Accounts(run, Outro(trackIndex), run', []) && run'.score == run.score
  {
    hide Solo, Room, RunTrace, Decodes, AddControl, HandlePedal;
    var pedal, last := Outro(trackIndex)[0], Outro(trackIndex)[1];
    var c, p := ChannelOf(trackIndex), ProgramOf(trackIndex);
    assert Outro(trackIndex) == [pedal] + [last] && [last] == [last] + [];
    assert OpOf(pedal.event.status, pedal.event.first, pedal.event.second) == TrackOp.Control(c, 64, 0);
    UnfoldTotals(last, []);
    SoloIsValid(run.model, c, p, notes, controls, bends, 0, true);
    SoloControl(run.model, c, p, run.time, 64, 0, notes, controls, bends, 0, true);
    SoloRelease(AddControl(run.model, c, run.time, 64, 0), c, p, run.time, 0, notes, controls + 1, bends, 0);
    SoloIsValid(AddControl(run.model, c, run.time, 64, 0), c, p, notes, controls + 1, bends, 0, true);
    var released := RunChannel(policy, grammar, t, pedal, [last], run, trackEnd);
    SoloIsValid(released.model, c, p, notes, controls + 1, bends, 1, false);
    RunEnd(policy, grammar, t.rest, last, released, trackEnd);
    run' := released.(events := released.events + 1);
  }

  lemma TrackRuns(policy: Policy, grammar: Grammar, trackIndex: u16, notes: u32, base: nat, f: FileRun) returns (run: Run)
    requires Room(policy, TrackStart(f), Script(trackIndex, notes))
    ensures Valid(TrackStart(f).model)
    ensures Solo(run.model, ChannelOf(trackIndex), ProgramOf(trackIndex), notes, 2 + CeilDiv(notes, 64), CeilDiv(notes, 256), 1, false)
    ensures RunTrace(policy, grammar, TraceOf(GeneratedTrack(trackIndex, notes), base), TrackStart(f),
                     base + |GeneratedTrack(trackIndex, notes)|) == Ok(run)
    ensures Accounts(TrackStart(f), Script(trackIndex, notes), run, [])
    ensures |run.score.markers| == |f.score.markers| + CeilDiv(notes, 512)
  {
    hide Solo, Room, RunTrace, Decodes, NoteOnCount, TextLength, Intro, Outro, Blocks, CeilDiv, GeneratedTrack, TraceOf, Valid;
    NoBlocks();
    var t := TraceOf(GeneratedTrack(trackIndex, notes), base);
    var trackEnd := base + |GeneratedTrack(trackIndex, notes)|;
    TrackDecodes(trackIndex, notes, base);
    var t1, introduced := IntroRuns(policy, grammar, t, trackIndex, Blocks(trackIndex, 0, notes) + Outro(trackIndex), TrackStart(f), trackEnd);
    var t2, played := BlocksRun(policy, grammar, t1, trackIndex, 0, notes, introduced, trackEnd);
    run := OutroRuns(policy, grammar, t2, trackIndex, played, trackEnd, notes, 1 + CeilDiv(notes, 64), CeilDiv(notes, 256));
  }

  lemma NoBlocks()
    ensures CeilDiv(0, 64) == CeilDiv(0, 256) == CeilDiv(0, 512) == 0
  {}

  // ----- Emission

  lemma {:induction false} AllCompleted(notes: seq<OpenNote>, n: nat)
    requires n <= |notes| && forall i :: 0 <= i < n ==> notes[i].duration.Some?
    ensures |CompletedUpTo(notes, n)| == n
  {
    if n > 0 {
      AllCompleted(notes, n - 1);
    }
  }

  /** The output track of a generated source track. */
  predicate TrackCounts(track: TickTrack, sourceTrack: nat, channel: u4, program: u7, notes: nat, controls: nat, bends: nat, pedals: nat) {
    && track.sourceTrack == sourceTrack && track.channel == channel && track.program == program
    && track.notes.len == notes && track.controls.len == controls && track.pitchBends.len == bends
    && track.pedals.len == pedals && track.lyrics.len == 0
  }

  /** The only key with a group is the channel's current one. */
  lemma SoloKey(m: Model, channel: u4, program: u7, notes: nat, controls: nat, bends: nat, pedals: nat, held: bool)
    requires Solo(m, channel, program, notes, controls, bends, pedals, held) && notes > 0
    ensures Key(channel, program) in m.index && m.index[Key(channel, program)] == 0
    ensures forall k :: k in m.index ==> k == Key(channel, program)
    ensures m.groups[0].channel == channel && m.groups[0].program == program
  {
    hide Queued;
    forall k | k in m.index ensures k == Key(channel, program) {
      assert m.index[k] == 0 && m.groups[0].GroupKey() == k;
    }
  }

  lemma SoloEmits(m: Model, channel: u4, program: u7, notes: nat, controls: nat, bends: nat, pedals: nat,
                  s: Score, sourceTrack: nat, name: TextRange, end: nat) returns (s': Score)
    requires Solo(m, channel, program, notes, controls, bends, pedals, false) && notes > 0
    requires s.noteCount + notes <= U32_MAX && |s.controls| + controls <= U32_MAX && |s.pitchBends| + bends <= U32_MAX
    requires |s.pedals| + pedals <= U32_MAX && s.lyrics == []
    ensures Valid(m) && EmitFrom(m, 0, sourceTrack, name, s, end) == Ok(s')
    ensures s'.noteCount == s.noteCount + notes && |s'.controls| == |s.controls| + controls
    ensures |s'.pitchBends| == |s.pitchBends| + bends && |s'.pedals| == |s.pedals| + pedals && s'.lyrics == []
    ensures s'.textData == s.textData && s'.markers == s.markers && s'.header == s.header
    ensures |s'.tracks| == |s.tracks| + 1 && s.tracks <= s'.tracks
    ensures TrackCounts(s'.tracks[|s.tracks|], sourceTrack, channel, program, notes, controls, bends, pedals)
  {
    hide Queued, Indexed, Shaped;
    var key := Key(channel, program);
    SoloKey(m, channel, program, notes, controls, bends, pedals, false);
    var g := m.groups[0];
    AllCompleted(g.columns.notes, |g.columns.notes|);
    s' := EmitGroup(s, g, sourceTrack, name, end).value;
    EmitFromSkips(m, 0, key, sourceTrack, name, s, end);
    EmitFromSkips(m, key + 1, KEYS, sourceTrack, name, s', end);
    EmitFromLast(m, sourceTrack, name, s', end);
  }

  // ----- Totals

  function TextTotal(count: nat, notes: u32): nat
    requires count <= U16_MAX
  {
    if count == 0 then 0 else TextTotal(count - 1, notes) + TextLength(Script(count - 1, notes))
  }

  lemma {:induction false} TotalsGrow(count: nat, more: nat, notes: u32)
    requires count <= more <= U16_MAX
    ensures TextTotal(count, notes) <= TextTotal(more, notes) && MessageTotal(count, notes) <= MessageTotal(more, notes)
    decreases more - count
  {
    hide Script, TextLength;
    if count < more {
      TotalsGrow(count, more - 1, notes);
    }
  }

  lemma ProductGrows(a: nat, b: nat, x: nat)
    requires a <= b
    ensures a * x <= b * x
  {}

  lemma {:induction false} StartsOfBlocks(trackIndex: u16, first: nat, notes: u32)
    requires first <= notes
    ensures NoteOnCount(Blocks(trackIndex, first, notes) + Outro(trackIndex)) == notes - first
    decreases notes - first
  {
    hide NoteOnCount, TextLength, Ticks, NoteOnAt, NoteOffAt, Extras, Blocks;
    if first == notes {
      BlocksDone(trackIndex, notes);
      var pedal, last := Outro(trackIndex)[0], Outro(trackIndex)[1];
      assert Blocks(trackIndex, first, notes) + Outro(trackIndex) == [pedal] + ([last] + []);
      UnfoldTotals(pedal, [last] + []);
      UnfoldTotals(last, []);
      NoStarts();
    } else {
      var on, off, extras := NoteOnAt(trackIndex, first), NoteOffAt(trackIndex, first), Extras(trackIndex, first);
      var rest := Blocks(trackIndex, first + 1, notes) + Outro(trackIndex);
      BlocksUnfold(trackIndex, first, notes, Outro(trackIndex));
      NotesAreNotes(trackIndex, first);
      UnfoldTotals(on, [off] + (extras + rest));
      UnfoldTotals(off, extras + rest);
      StartsOfExtras(trackIndex, first, rest);
      StartsOfBlocks(trackIndex, first + 1, notes);
    }
  }

  lemma NotesAreNotes(trackIndex: u16, index: u32)
    ensures IsNoteOn(NoteOnAt(trackIndex, index).event) && !IsNoteOn(NoteOffAt(trackIndex, index).event)
  {}

  lemma BlocksDone(trackIndex: u16, notes: u32)
    ensures Blocks(trackIndex, notes, notes) == []
  {}

  lemma NoStarts()
    ensures NoteOnCount([]) == 0
  {}

  lemma StartsOfExtras(trackIndex: u16, index: u32, rest: seq<Message>)
    ensures NoteOnCount(Extras(trackIndex, index) + rest) == NoteOnCount(rest)
  {
    hide NoteOnCount, TextLength, Ticks, ControlAt, BendAt, MarkerAt, OpOf;
    Cadence(index);
    ExtrasStartNothing(trackIndex, index);
    var control, bend, marker := ControlAt(trackIndex, index), BendAt(trackIndex, index), MarkerAt(index);
    var afterBend := if index % 512 == 0 then [marker] + rest else rest;
    var afterControl := if index % 256 == 0 then [bend] + afterBend else rest;
    UnfoldTotals(marker, rest);
    UnfoldTotals(bend, afterBend);
    UnfoldTotals(control, afterControl);
    assert Extras(trackIndex, index) + rest == if index % 64 == 0 then [control] + afterControl else rest;
  }

  lemma ExtrasStartNothing(trackIndex: u16, index: u32)
    ensures !IsNoteOn(ControlAt(trackIndex, index).event) && !IsNoteOn(BendAt(trackIndex, index).event)
    ensures !IsNoteOn(MarkerAt(index).event)
  {
    ExtrasStatuses(trackIndex, index);
  }

  lemma ScriptStarts(trackIndex: u16, notes: u32)
    ensures NoteOnCount(Script(trackIndex, notes)) == notes
  {
    hide NoteOnCount, TextLength, Ticks, Blocks, Outro, Script;
    var name, program, pedal := Intro(trackIndex)[0], Intro(trackIndex)[1], Intro(trackIndex)[2];
    var rest := Blocks(trackIndex, 0, notes) + Outro(trackIndex);
    ScriptUnfold(trackIndex, notes);
    UnfoldTotals(name, [program] + ([pedal] + rest));
    UnfoldTotals(program, [pedal] + rest);
    UnfoldTotals(pedal, rest);
    StartsOfBlocks(trackIndex, 0, notes);
  }

  /** A printed message takes at least two bytes, so a chunk-sized track cannot overflow its clock. */
  lemma {:induction false} PrintedTicks(ms: seq<PrintableMessage>, running: Running)
    ensures |ms| <= |Print(ms, running, false)| && Ticks(ms) <= |ms| * 0x1000_0000
    ensures TextLength(ms) <= |Print(ms, running, false)|
  {
    hide Vlq;
    if ms != [] {
      PrintedTicks(ms[1..], PrinterAfter(ms[0].event, running));
    }
  }

  // ----- Files

  /** The score's 32-bit offsets have room for all rows and all text of the file. */
  predicate OffsetsFit(count: u16, notes: u32) {
    && count * notes <= U32_MAX && count * (2 + CeilDiv(notes, 64)) <= U32_MAX && count * CeilDiv(notes, 256) <= U32_MAX
    && TextTotal(count, notes) <= U32_MAX
  }

  /** Limits that cover the file. */
  predicate Sufficient(policy: Policy, count: u16, notes: u32)
    requires TracksFit(count, notes)
  {
    policy.None? || (
      && |FileBytes(count, notes)| <= policy.value.maxInputBytes && count <= policy.value.maxSourceTracks
      && (forall t: u16 :: t < count ==> |GeneratedTrack(t, notes)| <= policy.value.maxTrackBytes)
      && MessageTotal(count, notes) <= policy.value.maxEvents && count * notes <= policy.value.maxNoteStarts
      && TextTotal(count, notes) <= policy.value.maxTextBytes)
  }

  /** What one generated source track becomes. */
  predicate TrackAsGenerated(track: TickTrack, index: u16, notes: u32) {
    TrackCounts(track, index, ChannelOf(index), ProgramOf(index), notes, 2 + CeilDiv(notes, 64), CeilDiv(notes, 256), 1)
  }

  /** The parse after `index` generated tracks. */
  ghost predicate FileAt(f: FileRun, index: u16, notes: u32) {
    && f.events == MessageTotal(index, notes) && f.noteStarts == index * notes
    && |f.score.textData| == TextTotal(index, notes)
    && f.score.noteCount == index * notes
    && |f.score.controls| == index * (2 + CeilDiv(notes, 64)) && |f.score.pitchBends| == index * CeilDiv(notes, 256)
    && |f.score.pedals| == index && f.score.lyrics == []
    && |f.score.markers| == index * CeilDiv(notes, 512)
    && |f.score.tracks| == index
    && forall t: u16 :: t < index ==> TrackAsGenerated(f.score.tracks[t], t, notes)
  }

  lemma RoomForTrack(policy: Policy, f: FileRun, index: u16, count: u16, notes: u32)
    requires index < count && TracksFit(count, notes) && OffsetsFit(count, notes) && Sufficient(policy, count, notes)
    requires FileAt(f, index, notes)
    ensures Room(policy, TrackStart(f), Script(index, notes))
  {
    hide GeneratedTrack, FileBytes, CeilDiv, TextLength, NoteOnCount, Ticks, Script, TrackAsGenerated;
    TotalsGrow(index + 1, count, notes);
    ProductGrows(index + 1, count, notes);
    ScriptStarts(index, notes);
    TrackTicks(index, notes);
    assert |GeneratedTrack(index, notes)| <= U32_MAX;
  }

  lemma TrackTicks(index: u16, notes: u32)
    ensures |Script(index, notes)| <= |GeneratedTrack(index, notes)|
    ensures Ticks(Script(index, notes)) <= |Script(index, notes)| * 0x1000_0000
  {
    hide Script;
    PrintedTicks(Script(index, notes), None);
  }

  /** One more track's rows still fit, and add up. */
  lemma RowsLeft(index: u16, count: u16, notes: u32)
    requires index < count && OffsetsFit(count, notes)
    ensures index * notes + notes == (index + 1) * notes <= U32_MAX
    ensures var x := 2 + CeilDiv(notes, 64); index * x + x == (index + 1) * x <= U32_MAX
    ensures var x := CeilDiv(notes, 256); index * x + x == (index + 1) * x <= U32_MAX
    ensures var x := CeilDiv(notes, 512); index * x + x == (index + 1) * x
    ensures MessageTotal(index + 1, notes) == MessageTotal(index, notes) + |Script(index, notes)|
    ensures TextTotal(index + 1, notes) == TextTotal(index, notes) + TextLength(Script(index, notes))
  {
    hide CeilDiv, Script, TextLength;
    ProductGrows(index + 1, count, notes);
    ProductGrows(index + 1, count, 2 + CeilDiv(notes, 64));
    ProductGrows(index + 1, count, CeilDiv(notes, 256));
  }

  /** The emitted track joins the earlier ones. */
  lemma TracksJoin(before: seq<TickTrack>, after: seq<TickTrack>, index: u16, notes: u32)
    requires |before| == index < |after| && before <= after
    requires forall t: u16 :: t < index ==> TrackAsGenerated(before[t], t, notes)
    requires TrackCounts(after[index], index, ChannelOf(index), ProgramOf(index), notes, 2 + CeilDiv(notes, 64), CeilDiv(notes, 256), 1)
    ensures forall t: u16 :: t < index + 1 ==> TrackAsGenerated(after[t], t, notes)
  {
    AsGenerated(after[index], index, notes);
    hide TrackAsGenerated, CeilDiv;
    forall t: u16 | t < index + 1 ensures TrackAsGenerated(after[t], t, notes) {
      assert t < index ==> after[t] == before[t];
    }
  }

  lemma GeneratedTrackScores(policy: Policy, grammar: Grammar, base: nat, f: FileRun, index: u16, count: u16, notes: u32)
    returns (f': FileRun)
    requires notes > 0
    requires index < count && TracksFit(count, notes) && OffsetsFit(count, notes) && Sufficient(policy, count, notes)
    requires FileAt(f, index, notes)
    ensures ScoreTrack(policy, grammar, GeneratedTrack(index, notes), base, index, f) == Ok(f')
    ensures FileAt(f', index + 1, notes)
  {
    hide GeneratedTrack, FileBytes, CeilDiv, TextLength, NoteOnCount, Ticks, Script, TraceOf, RunTrace, EmitFrom, Solo, Room,
         TrackAsGenerated, TrackCounts, TracksFit, Sufficient, OffsetsFit, MessageTotal, TextTotal;
    RoomForTrack(policy, f, index, count, notes);
    var run := TrackRuns(policy, grammar, index, notes, base, f);
    RowsLeft(index, count, notes);
    ScriptStarts(index, notes);
    NoMessages();
    var s' := SoloEmits(run.model, ChannelOf(index), ProgramOf(index), notes, 2 + CeilDiv(notes, 64), CeilDiv(notes, 256), 1,
                        run.score, index, run.name, base + |GeneratedTrack(index, notes)|);
    TracksJoin(f.score.tracks, s'.tracks, index, notes);
    f' := FileRun(s', run.events, run.noteStarts);
  }

  lemma AsGenerated(track: TickTrack, index: u16, notes: u32)
    requires TrackCounts(track, index, ChannelOf(index), ProgramOf(index), notes, 2 + CeilDiv(notes, 64), CeilDiv(notes, 256), 1)
    ensures TrackAsGenerated(track, index, notes)
  {}

  lemma NoMessages()
    ensures NoteOnCount([]) == 0 && TextLength([]) == 0
  {}

  lemma {:induction false} GeneratedChunksScore(policy: Policy, grammar: Grammar, c: Chunks, f: FileRun, index: u16, count: u16, notes: u32)
    returns (f': FileRun)
    requires notes > 0 && index <= count
    requires TracksFit(count, notes) && OffsetsFit(count, notes) && Sufficient(policy, count, notes)
    requires HoldsTracks(c, index, count, notes) && FileAt(f, index, notes)
    ensures FileAt(f', count, notes)
    ensures var r := ScoreChunks(policy, grammar, c, index, f);
            && r.Ok? && r.value == f'.score.(bytesConsumed := r.value.bytesConsumed, trailingBytes := 0)
    decreases c
  {
    hide GeneratedTrack, FileBytes, FileAt, OffsetsFit, ScoreTrack;
    if c.NoMore? {
      f' := f;
    } else {
      var next := GeneratedTrackScores(policy, grammar, c.base, f, index, count, notes);
      f' := GeneratedChunksScore(policy, grammar, c.rest, next, index + 1, count, notes);
    }
  }

  /**
    Every generated file with at least one note per track parses in every
    grammar under every sufficient budget, and gives one track per source track
    with the generated number of notes, controls, bends and markers, and one pedal.
   */
  lemma GeneratedFileScores(policy: Policy, grammar: Grammar, trackCount: u16, notes: u32)
    requires notes > 0 && TracksFit(trackCount, notes) && OffsetsFit(trackCount, notes) && Sufficient(policy, trackCount, notes)
    ensures var r := ScoreFile(policy, grammar, FileBytes(trackCount, notes));
            && r.Ok? && |r.value.tracks| == trackCount && r.value.trailingBytes == 0
            && r.value.noteCount == trackCount * notes && |r.value.markers| == trackCount * CeilDiv(notes, 512)
            && forall t: u16 :: t < trackCount ==> TrackAsGenerated(r.value.tracks[t], t, notes)
  {
    hide GeneratedTrack, ScoreChunks, ChunksFrom, HoldsTracks, HeaderBytes, ChunkList, TracksFit, MessageTotal, TextTotal, CeilDiv,
         TrackAsGenerated;
    var data := FileBytes(trackCount, notes);
    NoTracks(notes);
    assert StandsAt(data, 0, HeaderBytes(trackCount));
    HeaderPrinted(data, trackCount);
    FileHoldsTracks(trackCount, notes, 0);
    var header := Header(Parallel, trackCount, 480);
    var f := FileRun(EmptyScore(header), 0, 0);
    NothingYet(header, notes);
    var f' := GeneratedChunksScore(policy, grammar, ChunksOf(data), f, 0, trackCount, notes);
  }

  lemma NothingYet(header: Header, notes: u32)
    ensures FileAt(FileRun(EmptyScore(header), 0, 0), 0, notes)
  {}

  // ----- The rows must fit

  /** Channel messages and ASCII names and markers, then an empty End-of-Track. */
  predicate Plain(ms: seq<Message>) {
    ms == []
    || (&& (match ms[0].event
            case Channel(_, _, _) => true
            case Meta(metaType, payload) =>
              if metaType == END_OF_TRACK then payload == [] && |ms| == 1
              else metaType in {0x03, 0x06} && payload != [] && Utf8.Valid(payload)
            case SysEx(_, _) => false)
        && Plain(ms[1..]))
  }

  lemma PlainStep(m: Message, rest: seq<Message>)
    requires Plain(rest)
    requires match m.event
             case Channel(_, _, _) => true
             case Meta(metaType, payload) => metaType in {0x03, 0x06} && payload != [] && Utf8.Valid(payload)
             case SysEx(_, _) => false
    ensures Plain([m] + rest)
  {
    assert ([m] + rest)[0] == m && ([m] + rest)[1..] == rest;
  }

  lemma OutroPlain(trackIndex: u16)
    ensures Plain(Outro(trackIndex))
  {
    hide Plain;
    var pedal, last := Outro(trackIndex)[0], Outro(trackIndex)[1];
    LastPlain(last);
    PlainStep(pedal, [last]);
    assert Outro(trackIndex) == [pedal] + [last];
  }

  lemma NotesAreChannel(trackIndex: u16, index: nat)
    ensures NoteOnAt(trackIndex, index).event.Channel? && NoteOffAt(trackIndex, index).event.Channel?
  {}

  lemma {:induction false} BlocksPlain(trackIndex: u16, first: nat, notes: u32)
    requires first <= notes
    ensures Plain(Blocks(trackIndex, first, notes) + Outro(trackIndex))
    decreases notes - first
  {
    hide Plain, Outro, NoteOnAt, NoteOffAt, Extras, Utf8.Valid, Blocks;
    if first == notes {
      BlocksDone(trackIndex, notes);
      OutroPlain(trackIndex);
      assert Blocks(trackIndex, first, notes) + Outro(trackIndex) == Outro(trackIndex);
    } else {
      var on, off, extras := NoteOnAt(trackIndex, first), NoteOffAt(trackIndex, first), Extras(trackIndex, first);
      var rest := Blocks(trackIndex, first + 1, notes) + Outro(trackIndex);
      NotesAreChannel(trackIndex, first);
      BlocksPlain(trackIndex, first + 1, notes);
      ExtrasPlain(trackIndex, first, rest);
      PlainStep(off, extras + rest);
      PlainStep(on, [off] + (extras + rest));
      BlocksUnfold(trackIndex, first, notes, Outro(trackIndex));
    }
  }

  lemma LastPlain(m: Message)
    requires m.event == Event.Meta(END_OF_TRACK, [])
    ensures Plain([m])
  {
    assert [m][1..] == [];
  }

  lemma ExtrasPlain(trackIndex: u16, index: u32, rest: seq<Message>)
    requires Plain(rest)
    ensures Plain(Extras(trackIndex, index) + rest)
  {
    hide Plain, ControlAt, BendAt, MarkerAt;
    Cadence(index);
    ExtrasStatuses(trackIndex, index);
    MarkerPlain(index, rest);
    var control, bend, marker := ControlAt(trackIndex, index), BendAt(trackIndex, index), MarkerAt(index);
    var afterBend := if index % 512 == 0 then [marker] + rest else rest;
    var afterControl := if index % 256 == 0 then [bend] + afterBend else rest;
    PlainStep(bend, afterBend);
    PlainStep(control, afterControl);
    assert Extras(trackIndex, index) + rest == if index % 64 == 0 then [control] + afterControl else rest;
  }

  lemma MarkerPlain(index: u32, rest: seq<Message>)
    requires Plain(rest)
    ensures Plain([MarkerAt(index)] + rest)
  {
    hide Plain, Utf8.Valid;
    AsciiIsUtf8(MarkerName(index));
    PlainStep(MarkerAt(index), rest);
  }

  lemma ScriptPlain(trackIndex: u16, notes: u32)
    ensures Plain(Script(trackIndex, notes))
  {
    hide Plain, Blocks, Outro, Utf8.Valid, Script;
    var name, program, pedal := Intro(trackIndex)[0], Intro(trackIndex)[1], Intro(trackIndex)[2];
    var rest := Blocks(trackIndex, 0, notes) + Outro(trackIndex);
    BlocksPlain(trackIndex, 0, notes);
    AsciiIsUtf8(TrackName(trackIndex));
    PlainStep(pedal, rest);
    PlainStep(program, [pedal] + rest);
    PlainStep(name, [program] + ([pedal] + rest));
    ScriptUnfold(trackIndex, notes);
  }

  /** A track of plain messages that runs to its end has appended all its text, within 32 bits. */
  lemma {:induction false} TextAppended(grammar: Grammar, t: Trace, ms: seq<Message>, run: Run, trackEnd: nat)
    requires Valid(run.model) && Decodes(t, ms) && Plain(ms) && |run.score.textData| <= U32_MAX
    requires RunTrace(None, grammar, t, run, trackEnd).Ok?
    ensures var r := RunTrace(None, grammar, t, run, trackEnd).value;
            |r.score.textData| == |run.score.textData| + TextLength(ms) <= U32_MAX
    decreases t
  {
    hide Valid, Apply, Utf8.Valid, Perform;
    if t.Step? {
      var now := run.(time := run.time + t.head.delta);
      if grammar.StopsAtEndOfTrack() && IsEndOfTrack(t.head.event) {
        assert ms[1..] == [];
      } else {
        PerformValid(None, now, t.head);
        PlainText(now, t.head, ms);
        TextAppended(grammar, t.rest, ms[1..], Perform(None, now, t.head).value, trackEnd);
      }
    }
  }

  lemma PlainText(run: Run, e: TimedEvent, ms: seq<Message>)
    requires Valid(run.model) && ms != [] && e.event == ms[0].event && Plain(ms) && |run.score.textData| <= U32_MAX
    requires Perform(None, run, e).Ok?
    ensures |Perform(None, run, e).value.score.textData| == |run.score.textData| + |PayloadOf(e.event)| <= U32_MAX
  {
    hide Valid, Apply, AddLyric, Utf8.Valid, Utf8.Normalize;
    if e.event.Meta? && e.event.payload != [] {
      Utf8.NormalizeKeepsValid(e.event.payload);
    }
  }

  lemma SoloEmitsNothing(m: Model, channel: u4, program: u7, notes: nat, controls: nat, bends: nat, pedals: nat,
                         s: Score, sourceTrack: nat, name: TextRange, end: nat)
    requires Solo(m, channel, program, notes, controls, bends, pedals, false) && notes > 0
    requires s.noteCount + notes > U32_MAX || |s.controls| + controls > U32_MAX || |s.pitchBends| + bends > U32_MAX
    ensures Valid(m) && EmitFrom(m, 0, sourceTrack, name, s, end) == Err(At(end, SizeOverflow))
  {
    hide Queued, Indexed, Shaped;
    var key := Key(channel, program);
    SoloKey(m, channel, program, notes, controls, bends, pedals, false);
    var g := m.groups[0];
    AllCompleted(g.columns.notes, |g.columns.notes|);
    EmitFromSkips(m, 0, key, sourceTrack, name, s, end);
  }

  lemma RoomWithoutLimits(f: FileRun, index: u16, notes: u32)
    requires FileAt(f, index, notes) && |GeneratedTrack(index, notes)| <= U32_MAX
    requires TextTotal(index, notes) + TextLength(Script(index, notes)) <= U32_MAX
    ensures Room(None, TrackStart(f), Script(index, notes))
  {
    hide GeneratedTrack, CeilDiv, TextLength, Ticks, Script, TrackAsGenerated;
    TrackTicks(index, notes);
  }

  /** The first track whose rows or text do not fit fails. */
  lemma TrackTooMany(grammar: Grammar, base: nat, f: FileRun, index: u16, notes: u32)
    requires notes > 0 && index < U16_MAX && |GeneratedTrack(index, notes)| <= U32_MAX
    requires FileAt(f, index, notes) && OffsetsFit(index, notes) && !OffsetsFit(index + 1, notes)
    ensures ScoreTrack(None, grammar, GeneratedTrack(index, notes), base, index, f).Err?
  {
    hide GeneratedTrack, CeilDiv, TextLength, NoteOnCount, Ticks, Script, TraceOf, RunTrace, EmitFrom, Solo, Room, TrackAsGenerated,
         MessageTotal, Valid;
    var track, start := GeneratedTrack(index, notes), TrackStart(f);
    Sums(index, notes);
    EmptyModelValid();
    if TextTotal(index + 1, notes) > U32_MAX {
      if RunTrace(None, grammar, TraceOf(track, base), start, base + |track|).Ok? {
        TrackDecodes(index, notes, base);
        ScriptPlain(index, notes);
        TextAppended(grammar, TraceOf(track, base), Script(index, notes), start, base + |track|);
      }
    } else {
      RoomWithoutLimits(f, index, notes);
      var run := TrackRuns(None, grammar, index, notes, base, f);
      SoloEmitsNothing(run.model, ChannelOf(index), ProgramOf(index), notes, 2 + CeilDiv(notes, 64), CeilDiv(notes, 256), 1,
                       run.score, index, run.name, base + |track|);
    }
  }

  lemma Sums(index: u16, notes: u32)
    requires index < U16_MAX
    ensures (index + 1) * notes == index * notes + notes
    ensures var x := 2 + CeilDiv(notes, 64); (index + 1) * x == index * x + x
    ensures var x := CeilDiv(notes, 256); (index + 1) * x == index * x + x
    ensures TextTotal(index + 1, notes) == TextTotal(index, notes) + TextLength(Script(index, notes))
  {
    hide CeilDiv, Script, TextLength;
  }

  lemma {:induction false} ParsedRowsFit(grammar: Grammar, c: Chunks, f: FileRun, index: u16, count: u16, notes: u32)
    requires notes > 0 && index <= count && TracksFit(count, notes)
    requires HoldsTracks(c, index, count, notes) && FileAt(f, index, notes) && OffsetsFit(index, notes)
    requires ScoreChunks(None, grammar, c, index, f).Ok?
    ensures OffsetsFit(count, notes)
    decreases c
  {
    hide GeneratedTrack, FileBytes, FileAt, OffsetsFit, ScoreTrack;
    if c.Chunk? {
      if OffsetsFit(index + 1, notes) {
        var next := GeneratedTrackScores(None, grammar, c.base, f, index, index + 1, notes);
        ParsedRowsFit(grammar, c.rest, next, index + 1, count, notes);
      } else {
        TrackTooMany(grammar, c.base, f, index, notes);
      }
    }
  }

  /** Without limits a generated file parses exactly when its rows and text fit the score's offsets. */
  lemma GeneratedFileScoresIff(grammar: Grammar, trackCount: u16, notes: u32)
    requires notes > 0 && TracksFit(trackCount, notes)
    ensures ScoreFile(None, grammar, FileBytes(trackCount, notes)).Ok? <==> OffsetsFit(trackCount, notes)
  {
    hide GeneratedTrack, ScoreChunks, ChunksFrom, HoldsTracks, HeaderBytes, ChunkList, TracksFit, OffsetsFit, Sufficient;
    Unlimited(trackCount, notes);
    if OffsetsFit(trackCount, notes) {
      GeneratedFileScores(None, grammar, trackCount, notes);
    } else if ScoreFile(None, grammar, FileBytes(trackCount, notes)).Ok? {
      var data := FileBytes(trackCount, notes);
      NoTracks(notes);
      assert StandsAt(data, 0, HeaderBytes(trackCount));
      HeaderPrinted(data, trackCount);
      FileHoldsTracks(trackCount, notes, 0);
      var header := Header(Parallel, trackCount, 480);
      NothingYet(header, notes);
      NothingFits(notes);
      ParsedRowsFit(grammar, ChunksOf(data), FileRun(EmptyScore(header), 0, 0), 0, trackCount, notes);
    }
  }

  lemma Unlimited(count: u16, notes: u32)
    requires TracksFit(count, notes)
    ensures Sufficient(None, count, notes)
  {}

  lemma NothingFits(notes: u32)
    ensures OffsetsFit(0, notes)
  {}
}
