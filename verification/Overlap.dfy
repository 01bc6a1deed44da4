/** The generator of overlapping notes: one pitch, one tick, any number of notes. */
module Overlap {
  import opened Base
  import opened Smf
  import opened Wire
  import opened NoteColumns
  import opened ScoreTypes
  import opened TrackModel
  import opened TrackInvariants
  import opened Scores
  import opened ScoreEmission
  import opened ScoreGrammar
  import opened VlqCodec
  import opened Printer
  import opened Corpus
  import opened CorpusDecoding
  import opened CorpusScores
  import opened CorpusTheorems

  const PITCH: u7 := 60

  /** The first note has velocity one, and so does the formula for it. */
  function VelocityAt(index: nat): (v: u7)
    ensures v > 0
  {
    1 + index % 127
  }

  function Open(index: nat): PrintableMessage {
    Say(0, 0x9, 0, PITCH, VelocityAt(index))
  }

  function Close(): PrintableMessage {
    Say(0, 0x8, 0, PITCH, 0)
  }

  /** Note-ons from `first` on, then all note-offs, then the End-of-Track. */
  function Openings(first: nat, overlaps: nat): seq<PrintableMessage>
    requires first <= overlaps
    decreases overlaps - first
  {
    if first == overlaps then Closings(overlaps) else [Open(first)] + Openings(first + 1, overlaps)
  }

  function Closings(count: nat): seq<PrintableMessage> {
    if count == 0 then [LastMessage()] else [Close()] + Closings(count - 1)
  }

  function LastMessage(): PrintableMessage {
    Message(0, Event.Meta(END_OF_TRACK, []))
  }

  // ----- The generator

  function OpenedUpTo(n: nat): seq<PrintableMessage> {
    if n == 0 then [] else OpenedUpTo(n - 1) + [Open(n - 1)]
  }

  function ClosedUpTo(n: nat): seq<PrintableMessage> {
    if n == 0 then [] else ClosedUpTo(n - 1) + [Close()]
  }

  lemma Associate(a: seq<PrintableMessage>, b: seq<PrintableMessage>, c: seq<PrintableMessage>)
    ensures (a + b) + c == a + (b + c)
  {}

  lemma {:induction false} OpenedAll(n: nat, overlaps: nat)
    requires n <= overlaps
    ensures OpenedUpTo(n) + Openings(n, overlaps) == Openings(0, overlaps)
  {
    hide Open, Closings;
    if n == 0 {
      assert [] + Openings(0, overlaps) == Openings(0, overlaps);
    } else {
      OpenedAll(n - 1, overlaps);
      Associate(OpenedUpTo(n - 1), [Open(n - 1)], Openings(n, overlaps));
    }
  }

  lemma {:induction false} ClosedAll(n: nat)
    ensures ClosedUpTo(n) + [LastMessage()] == Closings(n)
  {
    if n > 0 {
      ClosedAll(n - 1);
      ClosedShift(n - 1);
      assert ClosedUpTo(n) + [LastMessage()] == [Close()] + (ClosedUpTo(n - 1) + [LastMessage()]);
    }
  }

  lemma {:induction false} ClosedShift(n: nat)
    ensures ClosedUpTo(n) + [Close()] == [Close()] + ClosedUpTo(n)
  {
    if n > 0 {
      ClosedShift(n - 1);
      assert ClosedUpTo(n) + [Close()] == ClosedUpTo(n - 1) + [Close()] + [Close()];
      assert [Close()] + ClosedUpTo(n) == [Close()] + ClosedUpTo(n - 1) + [Close()];
    }
  }

  // The literal bytes of the generator are what the printer appends.

  lemma FirstBytes()
    ensures [Open(0)] == OpenedUpTo(1) && PrinterAt([Open(0)], None) == Some(0x90)
    ensures Print([Open(0)], None, false) == [0x00, 0x90, 0x3C, 0x01]
  {
    PrintAppend([], Open(0), None);
    assert [] + [Open(0)] == [Open(0)];
  }

  lemma OpenBytes(ms: seq<PrintableMessage>, index: nat)
    requires PrinterAt(ms, None) == Some(0x90)
    ensures Print(ms + [Open(index)], None, false) == Print(ms, None, false) + [0x00, 0x3C, 1 + index % 127]
    ensures PrinterAt(ms + [Open(index)], None) == Some(0x90)
  {
    PrintAppend(ms, Open(index), None);
    assert Vlq(0) == [0];
  }

  lemma CloseBytes(ms: seq<PrintableMessage>)
    requires PrinterAt(ms, None) == Some(0x90) || PrinterAt(ms, None) == Some(0x80)
    ensures Print(ms + [Close()], None, false) == Print(ms, None, false)
         + if PrinterAt(ms, None) == Some(0x90) then [0x00, 0x80, 0x3C, 0x00] else [0x00, 0x3C, 0x00]
    ensures PrinterAt(ms + [Close()], None) == Some(0x80)
  {
    PrintAppend(ms, Close(), None);
    assert Vlq(0) == [0];
  }

  lemma LastBytes(ms: seq<PrintableMessage>)
    ensures Print(ms + [LastMessage()], None, false) == Print(ms, None, false) + [0x00, 0xFF, 0x2F, 0x00]
  {
    PrintAppend(ms, LastMessage(), None);
    assert Vlq(0) == [0];
  }

  /** `None` is the `ValueError` for a count that is not positive. */
  method MakeOverlap(overlaps: int) returns (r: Option<Bytes>)
    ensures r == if overlaps < 1 then None else Some(Print(Openings(0, overlaps), None, false))
  {
    hide Print, PrinterAt, Openings, OpenedUpTo, ClosedUpTo, Open, Close, LastMessage;
    if overlaps < 1 {
      return None;
    }
    var track: Bytes := [0x00, 0x90, 0x3C, 0x01];
    FirstBytes();
    for index := 1 to overlaps
      invariant PrinterAt(OpenedUpTo(index), None) == Some(0x90)
      invariant track == Print(OpenedUpTo(index), None, false)
    {
      OpenBytes(OpenedUpTo(index), index);
      OpenedMore(index);
      track := track + ([0x00, 0x3C] + [1 + index % 127]);
    }
    ghost var started := OpenedUpTo(overlaps);
    CloseBytes(started);
    track := track + [0x00, 0x80, 0x3C, 0x00];
    NoneClosed(started);
    ClosedMore(started, 0);
    for index := 1 to overlaps
      invariant PrinterAt(started + ClosedUpTo(index), None) == Some(0x80)
      invariant track == Print(started + ClosedUpTo(index), None, false)
    {
      CloseBytes(started + ClosedUpTo(index));
      ClosedMore(started, index);
      track := track + [0x00, 0x3C, 0x00];
    }
    LastBytes(started + ClosedUpTo(overlaps));
    track := track + [0x00, 0xFF, 0x2F, 0x00];
    AllMessages(overlaps);
    r := Some(track);
  }

  lemma OpenedMore(n: nat)
    ensures OpenedUpTo(n + 1) == OpenedUpTo(n) + [Open(n)]
  {}

  lemma NoneClosed(before: seq<PrintableMessage>)
    ensures before + ClosedUpTo(0) == before
  {}

  lemma ClosedMore(before: seq<PrintableMessage>, n: nat)
    ensures before + ClosedUpTo(n + 1) == before + ClosedUpTo(n) + [Close()]
  {}

  lemma AllMessages(overlaps: nat)
    ensures OpenedUpTo(overlaps) + ClosedUpTo(overlaps) + [LastMessage()] == Openings(0, overlaps)
  {
    hide OpenedUpTo, ClosedUpTo, Closings, LastMessage;
    OpenedAll(overlaps, overlaps);
    ClosedAll(overlaps);
    assert OpenedUpTo(overlaps) + ClosedUpTo(overlaps) + [LastMessage()]
        == OpenedUpTo(overlaps) + (ClosedUpTo(overlaps) + [LastMessage()]);
  }

  // ----- Decoding

  lemma {:induction false} ClosingsResent(count: nat, running: Running)
    requires running == Some(0x80) || running == Some(0x90)
    ensures StatusResent(Closings(count), running, running)
  {
    hide StatusResent, Close, LastMessage;
    Kinds(0);
    if count == 0 {
      NothingResent(running);
      ResentStep(LastMessage(), [], running, running);
      assert [LastMessage()] + [] == [LastMessage()];
    } else {
      ClosingsResent(count - 1, Some(0x80));
      ResentStep(Close(), Closings(count - 1), running, running);
    }
  }

  lemma NothingResent(running: Running)
    ensures StatusResent([], running, None)
  {}

  lemma Kinds(index: nat)
    ensures Open(index).event.Channel? && Open(index).event.status == 0x90
    ensures Close().event.Channel? && Close().event.status == 0x80 && LastMessage().event.Meta?
    ensures OpOf(Open(index).event.status, Open(index).event.first, Open(index).event.second) == NoteOn(0, PITCH, VelocityAt(index))
    ensures OpOf(Close().event.status, Close().event.first, Close().event.second) == NoteOff(0, PITCH)
    ensures Open(index).delta == 0 && Close().delta == 0
  {}

  lemma {:induction false} OpeningsResent(first: nat, overlaps: nat, running: Running)
    requires first <= overlaps && (running == Some(0x90) || (first == 0 < overlaps && running == None))
    ensures StatusResent(Openings(first, overlaps), running, running)
    decreases overlaps - first
  {
    hide StatusResent, Open, Closings;
    Kinds(first);
    if first == overlaps {
      ClosingsResent(overlaps, running);
    } else {
      OpeningsResent(first + 1, overlaps, Some(0x90));
      ResentStep(Open(first), Openings(first + 1, overlaps), running, running);
    }
  }

  // ----- The queue fills and drains

  /** `n` notes have started at tick zero and the first `k` of them are closed; the others queue in order. */
  ghost predicate Stacked(m: Model, n: nat, k: nat) {
    && Valid(m) && k <= n && m.programs[0] == 0
    && (if n == 0 then m.groups == [] else |m.groups| == 1 && Target(m, 0) == Some(0))
    && |m.open[60]| == n - k && (forall i :: 0 <= i < n - k ==> m.open[60][i] == NoteRef(0, i + k, 0))
    && var g := Current(m, 0);
    && g.controls == [] && g.pitchBends == [] && g.pedals == [] && g.lyrics == []
    && |g.columns.notes| == n
    && forall i :: 0 <= i < n ==> g.columns.notes[i] == OpenNote(0, if i < k then Some(0) else None, PITCH, VelocityAt(i))
  }

  lemma StackOn(m: Model, n: nat)
    requires Stacked(m, n, 0)
    ensures Stacked(AddNote(m, 0, PITCH, VelocityAt(n), 0), n + 1, 0)
  {
    hide Queued;
    AddNoteValid(m, 0, PITCH, VelocityAt(n), 0);
  }

  lemma StackOff(m: Model, n: nat, k: nat)
    requires Stacked(m, n, k) && k < n
    ensures Stacked(EndNote(m, 0, PITCH, 0), n, k + 1)
  {
    EndNoteValid(m, 0, PITCH, 0);
    assert Queued(m, 60, m.open[60]) && OpenAt(m, 60, m.open[60][0]);
    hide Queued, OpenAt;
  }

  lemma {:induction false} ClosingsRun(policy: Policy, grammar: Grammar, t: Trace, count: nat, n: nat, run: Run, trackEnd: nat)
    returns (run': Run)
    requires count <= n && Decodes(t, Closings(count)) && Room(policy, run, Closings(count))
    requires Stacked(run.model, n, n - count) && run.time == 0
    ensures Stacked(run'.model, n, n) && run'.score == run.score
    ensures RunTrace(policy, grammar, t, run, trackEnd) == Ok(run')
  {
    hide Stacked, Room, Decodes, RunTrace, EndNote, Close, LastMessage, Accounts;
    StackedIsValid(run.model, n, n - count);
    if count == 0 {
      LastIsEnd();
      RunEnd(policy, grammar, t, LastMessage(), run, trackEnd);
      run' := run.(events := run.events + 1);
    } else {
      Kinds(0);
      StackOff(run.model, n, n - count);
      var next := RunChannel(policy, grammar, t, Close(), Closings(count - 1), run, trackEnd);
      run' := ClosingsRun(policy, grammar, t.rest, count - 1, n, next, trackEnd);
    }
  }

  lemma LastIsEnd()
    ensures LastMessage().event == Event.Meta(END_OF_TRACK, []) && LastMessage().delta == 0
  {}

  lemma StackedIsValid(m: Model, n: nat, k: nat)
    requires Stacked(m, n, k)
    ensures Valid(m)
  {}

  lemma {:induction false} OpeningsRun(policy: Policy, grammar: Grammar, t: Trace, first: nat, n: nat, run: Run, trackEnd: nat)
    returns (run': Run)
    requires first <= n && Decodes(t, Openings(first, n)) && Room(policy, run, Openings(first, n))
    requires Stacked(run.model, first, 0) && run.time == 0
    ensures Stacked(run'.model, n, n) && run'.score == run.score
    ensures RunTrace(policy, grammar, t, run, trackEnd) == Ok(run')
    decreases n - first
  {
    hide Stacked, Room, Decodes, RunTrace, AddNote, Open, Closings, Accounts;
    StackedIsValid(run.model, first, 0);
    if first == n {
      run' := ClosingsRun(policy, grammar, t, n, n, run, trackEnd);
    } else {
      Kinds(first);
      StackOn(run.model, first);
      var next := RunChannel(policy, grammar, t, Open(first), Openings(first + 1, n), run, trackEnd);
      run' := OpeningsRun(policy, grammar, t.rest, first + 1, n, next, trackEnd);
    }
  }

  // ----- The score

  /** Note `i` of the result: tick and duration zero, and a velocity that tells its place in the queue. */
  predicate NotesAsQueued(notes: seq<TickNote>, n: nat) {
    |notes| == n && forall i :: 0 <= i < n ==> notes[i] == TickNote(0, 0, PITCH, 1 + i % 127)
  }

  lemma {:induction false} ClosedNotes(notes: seq<OpenNote>, n: nat)
    requires n <= |notes| && forall i :: 0 <= i < n ==> notes[i] == OpenNote(0, Some(0), PITCH, VelocityAt(i))
    ensures NotesAsQueued(CompletedUpTo(notes, n), n)
  {
    if n > 0 {
      ClosedNotes(notes, n - 1);
    }
  }

  lemma StackEmits(m: Model, n: nat, s: Score, name: TextRange, end: nat) returns (s': Score)
    requires Stacked(m, n, n) && 0 < n <= U32_MAX
    requires s.noteCount == 0 && s.controls == [] && s.pitchBends == [] && s.pedals == [] && s.lyrics == []
    requires s.tracks == [] && s.segments == []
    ensures Valid(m) && EmitFrom(m, 0, 0, name, s, end) == Ok(s')
    ensures |s'.tracks| == |s'.segments| == 1 && NotesAsQueued(s'.segments[0].notes, n)
    ensures s'.noteCount == n && s'.tracks[0].notes == ScoreRange(0, n)
  {
    hide Queued, Shaped;
    forall k | k in m.index ensures k == 0 {
      assert m.index[k] == 0 && m.groups[0].GroupKey() == k;
    }
    var g := m.groups[0];
    ClosedNotes(g.columns.notes, n);
    hide NotesAsQueued, Indexed;
    s' := EmitGroup(s, g, 0, name, end).value;
    EmitFromSkips(m, 1, KEYS, 0, name, s', end);
    EmitFromLast(m, 0, name, s', end);
  }

  function OverlapTrack(overlaps: nat): Bytes {
    Print(Openings(0, overlaps), None, false)
  }

  function OverlapFile(overlaps: nat): Bytes
    requires |OverlapTrack(overlaps)| <= U32_MAX
  {
    HeaderBytes(1) + ChunkBytes(OverlapTrack(overlaps))
  }

  lemma OverlapTrackRuns(grammar: Grammar, overlaps: nat, base: nat, f: FileRun) returns (run: Run)
    requires overlaps > 0 && |OverlapTrack(overlaps)| <= U32_MAX && f.score.textData == []
    ensures Valid(TrackStart(f).model) && Stacked(run.model, overlaps, overlaps) && run.score == f.score && overlaps <= U32_MAX
    ensures RunTrace(None, grammar, TraceOf(OverlapTrack(overlaps), base), TrackStart(f), base + |OverlapTrack(overlaps)|) == Ok(run)
  {
    NothingStacked();
    hide Stacked, Decodes, RunTrace, Print, Openings, StatusResent, TraceOf, Valid;
    var ms := Openings(0, overlaps);
    OpeningsResent(0, overlaps, None);
    CompressionPreservesMeaning(ms, base);
    PrintedTicks(ms, None);
    OpeningsCount(0, overlaps);
    run := OpeningsRun(None, grammar, TraceOf(OverlapTrack(overlaps), base), 0, overlaps, TrackStart(f), base + |OverlapTrack(overlaps)|);
  }

  lemma NothingStacked()
    ensures Stacked(StartModel(), 0, 0)
  {}

  lemma {:induction false} OpeningsCount(first: nat, overlaps: nat)
    requires first <= overlaps
    ensures |Openings(first, overlaps)| == 2 * overlaps - first + 1
    decreases overlaps - first
  {
    if first == overlaps {
      ClosingsCount(overlaps);
    } else {
      OpeningsCount(first + 1, overlaps);
    }
  }

  lemma {:induction false} ClosingsCount(count: nat)
    ensures |Closings(count)| == count + 1
  {
    if count > 0 {
      ClosingsCount(count - 1);
    }
  }

  lemma OverlapFileChunks(overlaps: nat)
    requires |OverlapTrack(overlaps)| <= U32_MAX
    ensures var data, track := OverlapFile(overlaps), OverlapTrack(overlaps);
            && HeaderAt(data) == Ok(Read(Header(Parallel, 1, 480), 14))
            && ChunksFrom(data, 14, 1) == Chunk(18, track, 22, NoMore(|data|, 0))
  {
    var data, track := OverlapFile(overlaps), OverlapTrack(overlaps);
    assert |HeaderBytes(1)| == 14 && |ChunkBytes(track)| == 8 + |track|;
    assert StandsAt(data, 0, HeaderBytes(1)) && StandsAt(data, 14, ChunkBytes(track));
    hide OverlapTrack, HeaderBytes, ChunkBytes, FrameAt;
    HeaderPrinted(data, 1);
    FramePrinted(data, 14, track);
    assert ChunksFrom(data, |data|, 0) == NoMore(|data|, 0);
  }

  lemma OverlapTrackScores(grammar: Grammar, overlaps: nat, f: FileRun) returns (f': FileRun)
    requires overlaps > 0 && |OverlapTrack(overlaps)| <= U32_MAX
    requires f == FileRun(EmptyScore(f.score.header), 0, 0)
    ensures ScoreTrack(None, grammar, OverlapTrack(overlaps), 22, 0, f) == Ok(f')
    ensures |f'.score.tracks| == |f'.score.segments| == 1 && NotesAsQueued(f'.score.segments[0].notes, overlaps)
    ensures f'.score.noteCount == overlaps && f'.score.tracks[0].notes == ScoreRange(0, overlaps)
  {
    hide OverlapTrack, NotesAsQueued, RunTrace, TraceOf, EmitFrom, Stacked, Valid;
    var run := OverlapTrackRuns(grammar, overlaps, 22, f);
    var s' := StackEmits(run.model, overlaps, run.score, run.name, 22 + |OverlapTrack(overlaps)|);
    f' := FileRun(s', run.events, run.noteStarts);
  }

  /**
    For every positive number of overlapping notes whose track fits its chunk,
    the file parses in the trusted parser (and every other grammar) to one track
    with exactly those notes, in queue order.
   */
  lemma OverlapFileScores(grammar: Grammar, overlaps: nat)
    requires overlaps > 0 && |OverlapTrack(overlaps)| <= U32_MAX
    ensures var r := ScoreFile(None, grammar, OverlapFile(overlaps));
            && r.Ok? && |r.value.tracks| == |r.value.segments| == 1 && r.value.noteCount == overlaps
            && r.value.tracks[0].notes == ScoreRange(0, overlaps) && NotesAsQueued(r.value.segments[0].notes, overlaps)
  {
    hide OverlapTrack, OverlapFile, NotesAsQueued, ScoreTrack, ChunksFrom, HeaderAt;
    OverlapFileChunks(overlaps);
    var f := FileRun(EmptyScore(Header(Parallel, 1, 480)), 0, 0);
    var f' := OverlapTrackScores(grammar, overlaps, f);
    var end := NoMore(|OverlapFile(overlaps)|, 0);
    assert ScoreChunks(None, grammar, end, 1, f').Ok?;
    assert ScoreChunks(None, grammar, Chunk(18, OverlapTrack(overlaps), 22, end), 0, f)
        == ScoreChunks(None, grammar, end, 1, f');
  }
}
