/** Whole files: what every output track of a returned score shows, source track by source track. */
module ScoreFiles {
  import opened Base
  import opened Smf
  import opened Wire
  import opened NoteColumns
  import opened ScoreTypes
  import opened TrackModel
  import opened TrackInvariants
  import opened TrackRuns
  import opened TrackGroups
  import opened TrackRows
  import opened TrackPlacement
  import opened Scores
  import opened ScoreEmission
  import opened ScoreGrammar
  import opened ScoreBounds
  import opened ScoreTheorems
  import opened ScorePlacement
  import opened ScoreMetas
  import opened TrackNotes
  import opened TrackSpelling
  import StableSort
  import Utf8

  // ----- Later tracks leave earlier ones alone

  /** `later` is `s` with more tracks, rows and text behind its own. */
  ghost predicate Continues(s: Score, later: Score) {
    && s.tracks <= later.tracks && s.segments <= later.segments && s.textData <= later.textData
    && s.controls <= later.controls && s.pitchBends <= later.pitchBends
    && s.pedals <= later.pedals && s.lyrics <= later.lyrics
  }

  lemma EmittedLater(s: Score, later: Score, i: nat, g: Group, sourceTrack: nat, name: TextRange)
    requires Continues(s, later) && Emitted(s, i, g, sourceTrack, name)
    ensures Emitted(later, i, g, sourceTrack, name)
  {
    hide Selects;
    var t := s.tracks[i];
    SelectsExtends(s.controls, later.controls, t.controls, g.controls);
    SelectsExtends(s.pitchBends, later.pitchBends, t.pitchBends, g.pitchBends);
    SelectsExtends(s.pedals, later.pedals, t.pedals, g.pedals);
    SelectsExtends(s.lyrics, later.lyrics, t.lyrics, g.lyrics);
  }

  /** The output tracks from `from` on come from source tracks `low` up to `high`. */
  ghost predicate SourcedFrom(s: Score, from: nat, low: nat, high: nat) {
    forall i :: from <= i < |s.tracks| ==> low <= s.tracks[i].sourceTrack < high
  }

  lemma {:induction false} RunContinues(policy: Policy, grammar: Grammar, t: Trace, run: Run, trackEnd: nat)
    requires Valid(run.model) && RunTrace(policy, grammar, t, run, trackEnd).Ok?
    ensures Continues(run.score, RunTrace(policy, grammar, t, run, trackEnd).value.score)
    decreases t
  {
    hide Valid, Perform;
    if t.Step? && !(grammar.StopsAtEndOfTrack() && IsEndOfTrack(t.head.event)) {
      var now := run.(time := run.time + t.head.delta);
      PerformValid(policy, now, t.head);
      PerformContinues(policy, now, t.head);
      RunContinues(policy, grammar, t.rest, Perform(policy, now, t.head).value, trackEnd);
    }
  }

  lemma PerformContinues(policy: Policy, run: Run, e: TimedEvent)
    requires Valid(run.model) && Perform(policy, run, e).Ok?
    ensures Continues(run.score, Perform(policy, run, e).value.score)
  {
    hide Valid, AddLyric, Apply, Utf8.Normalize;
  }

  lemma TrackContinues(policy: Policy, grammar: Grammar, body: Bytes, base: nat, sourceTrack: nat, f: FileRun)
    requires ScoreTrack(policy, grammar, body, base, sourceTrack, f).Ok? && |f.score.segments| == |f.score.tracks|
    ensures var s := ScoreTrack(policy, grammar, body, base, sourceTrack, f).value.score;
            && Continues(f.score, s) && |s.segments| == |s.tracks|
            && SourcedFrom(s, |f.score.tracks|, sourceTrack, sourceTrack + 1)
  {
    hide Valid, RunTrace, EmitFrom, TraceOf, Emitted, GroupsFrom;
    var t, start := TraceOf(body, base), TrackStart(f);
    EmptyModelValid();
    RunContinues(policy, grammar, t, start, base + |body|);
    SegmentsKept(policy, grammar, t, start, base + |body|);
    var run := RunTrace(policy, grammar, t, start, base + |body|).value;
    EmitFromEmits(run.model, 0, sourceTrack, run.name, run.score, base + |body|);
    var s := EmitFrom(run.model, 0, sourceTrack, run.name, run.score, base + |body|).value;
    forall i | |f.score.tracks| <= i < |s.tracks| ensures s.tracks[i].sourceTrack == sourceTrack {
      var j := i - |f.score.tracks|;
      assert Emitted(s, |f.score.tracks| + j, GroupsFrom(run.model, 0)[j], sourceTrack, run.name);
      EmittedSource(s, i, GroupsFrom(run.model, 0)[j], sourceTrack, run.name);
    }
  }

  lemma EmittedSource(s: Score, i: nat, g: Group, sourceTrack: nat, name: TextRange)
    requires Emitted(s, i, g, sourceTrack, name)
    ensures s.tracks[i].sourceTrack == sourceTrack && s.tracks[i].name == name
  {}

  lemma {:induction false} ChunksContinue(policy: Policy, grammar: Grammar, c: Chunks, sourceTrack: nat, f: FileRun)
    requires ScoreChunks(policy, grammar, c, sourceTrack, f).Ok? && |f.score.segments| == |f.score.tracks|
    ensures var s := ScoreChunks(policy, grammar, c, sourceTrack, f).value;
            Continues(f.score, s) && forall i :: |f.score.tracks| <= i < |s.tracks| ==> sourceTrack <= s.tracks[i].sourceTrack
    decreases c
  {
    hide ScoreTrack;
    if c.Chunk? {
      TrackContinues(policy, grammar, c.body, c.base, sourceTrack, f);
      ChunksContinue(policy, grammar, c.rest, sourceTrack + 1, ScoreTrack(policy, grammar, c.body, c.base, sourceTrack, f).value);
    }
  }

  // ----- One source track of a file

  function ChunkAt(c: Chunks, k: nat): Option<(Bytes, nat)>
    decreases c
  {
    if !c.Chunk? then None else if k == 0 then Some((c.body, c.base)) else ChunkAt(c.rest, k - 1)
  }

  /** The state before source track `k` of the file, and what surrounds its output tracks. */
  lemma {:induction false} ChunkReached(policy: Policy, grammar: Grammar, c: Chunks, sourceTrack: nat, f: FileRun, k: nat)
    returns (g: FileRun)
    requires ScoreChunks(policy, grammar, c, sourceTrack, f).Ok? && |f.score.segments| == |f.score.tracks|
    requires ChunkAt(c, k).Some?
    ensures var s, (body, base) := ScoreChunks(policy, grammar, c, sourceTrack, f).value, ChunkAt(c, k).value;
            && |g.score.segments| == |g.score.tracks| && Continues(f.score, g.score)
            && ScoreTrack(policy, grammar, body, base, sourceTrack + k, g).Ok?
            && SourcedFrom(g.score, |f.score.tracks|, sourceTrack, sourceTrack + k)
            && var next := ScoreTrack(policy, grammar, body, base, sourceTrack + k, g).value.score;
            && Continues(g.score, next) && Continues(next, s)
            && SourcedFrom(next, |g.score.tracks|, sourceTrack + k, sourceTrack + k + 1)
            && forall i :: |next.tracks| <= i < |s.tracks| ==> sourceTrack + k < s.tracks[i].sourceTrack
    decreases c
  {
    hide ScoreTrack;
    TrackContinues(policy, grammar, c.body, c.base, sourceTrack, f);
    var next := ScoreTrack(policy, grammar, c.body, c.base, sourceTrack, f).value;
    if k == 0 {
      g := f;
      ChunksContinue(policy, grammar, c.rest, sourceTrack + 1, next);
    } else {
      g := ChunkReached(policy, grammar, c.rest, sourceTrack + 1, next, k - 1);
    }
  }

  /** Each lyric operation carries the normalized text of its event, and no other event becomes one. */
  lemma {:induction false} LyricTexts(policy: Policy, grammar: Grammar, t: Trace, run: Run, trackEnd: nat)
    requires Valid(run.model) && RunTrace(policy, grammar, t, run, trackEnd).Ok?
    ensures LyricsSelected(TrackOps(policy, grammar, t, run), EventsOf(t), RunTrace(policy, grammar, t, run, trackEnd).value.score.textData)
    decreases t
  {
    hide Valid, Perform, EventOp, LyricSelected, Utf8.Normalize;
    if t.Step? && !(grammar.StopsAtEndOfTrack() && IsEndOfTrack(t.head.event)) {
      var now := run.(time := run.time + t.head.delta);
      PerformValid(policy, now, t.head);
      var next := Perform(policy, now, t.head).value;
      var textData := RunTrace(policy, grammar, t, run, trackEnd).value.score.textData;
      RunContinues(policy, grammar, t.rest, next, trackEnd);
      LyricOp(policy, now, t.head, textData);
      LyricTexts(policy, grammar, t.rest, next, trackEnd);
      var ops, rest, es := TrackOps(policy, grammar, t, run), TrackOps(policy, grammar, t.rest, next), EventsOf(t);
      forall i | 0 <= i < |ops| ensures LyricSelected(ops[i].op, es[i], textData) {
        if i > 0 {
          assert LyricSelected(rest[i - 1].op, EventsOf(t.rest)[i - 1], textData);
        }
      }
    }
  }

  predicate LyricSelected(op: TrackOp, e: TimedEvent, textData: Bytes) {
    && (op.Lyric? <==> e.event.Meta? && e.event.metaType == 0x05 && e.event.payload != [])
    && (op.Lyric? ==> Selected(textData, op.text, Utf8.Normalize(e.event.payload)))
  }

  ghost predicate LyricsSelected(ops: seq<TimedOp>, es: seq<TimedEvent>, textData: Bytes) {
    |ops| <= |es| && forall i :: 0 <= i < |ops| ==> LyricSelected(ops[i].op, es[i], textData)
  }

  lemma LyricOp(policy: Policy, run: Run, e: TimedEvent, later: Bytes)
    requires Valid(run.model) && Perform(policy, run, e).Ok? && Perform(policy, run, e).value.score.textData <= later
    ensures LyricSelected(EventOp(policy, run, e), e, later)
  {
    hide Valid, AddLyric, Apply, Utf8.Normalize, PushText, Selected;
    if e.event.Meta? && e.event.metaType == 0x05 && e.event.payload != [] {
      PushedSelected(policy, run.score, e.event.payload, e.offset, e.end);
      var (s', r) := PushText(policy, run.score, e.event.payload, e.offset, e.end).value;
      SelectedLater(s'.textData, later, r, Utf8.Normalize(e.event.payload));
    }
  }

  /** Output track `i` shows what the run of these operations delivered to its channel and program. */
  ghost predicate TrackAsRun(s: Score, i: nat, ops: seq<TimedOp>)
    requires Monotone(ops) && i < |s.tracks| && i < |s.segments|
  {
    var t, m, n := s.tracks[i], ModelAt(ops, |ops|), |ops|;
    && t.isDrum == (t.channel == 9)
    && Key(t.channel, t.program) in m.index
    && s.segments[i] == SegmentOf(m.groups[m.index[Key(t.channel, t.program)]].columns)
    && StruckOf(m.groups[m.index[Key(t.channel, t.program)]].columns.notes) == NotesFor(ops, n, t.channel, t.program)
    && s.segments[i].notes == Finished(ops, n, n, t.channel, t.program)
    && Selects(s.lyrics, t.lyrics, LyricsFor(ops, n, t.channel, t.program))
    && RowsOfTrack(s, i) == Placed(ops, n, n, t.channel, Some(t.program))
  }

  lemma EmittedAsRun(s: Score, i: nat, g: Group, sourceTrack: nat, name: TextRange, ops: seq<TimedOp>)
    requires Monotone(ops) && Emitted(s, i, g, sourceTrack, name)
    requires var m := ModelAt(ops, |ops|);
             g.GroupKey() in m.index && g == m.groups[m.index[g.GroupKey()]]
    ensures TrackAsRun(s, i, ops)
  {
    hide ModelAt, Monotone, InOrder, Queued, Shaped, Placed, RowsOfTrack, Selects, Finished, NotesFor, LyricsFor, CompletedUpTo;
    EmittedShows(s, i, g, sourceTrack, name);
    RowsPlaced(ops, |ops|, g.channel, Some(g.program));
    GroupsHoldDeliveries(ops, |ops|, g.channel, g.program);
    GroupNotesFinished(ops, |ops|, g.channel, g.program);
  }

  lemma NamedTrack(policy: Policy, grammar: Grammar, t: Trace, f: FileRun, trackEnd: nat)
    requires Valid(TrackStart(f).model) && RunTrace(policy, grammar, t, TrackStart(f), trackEnd).Ok?
    ensures var run := RunTrace(policy, grammar, t, TrackStart(f), trackEnd).value;
            Selected(run.score.textData, run.name, NameOf(grammar, t, []))
  {
    hide Valid, RunTrace, NameOf, EmptyModel;
    TrackNamed(policy, grammar, t, TrackStart(f), trackEnd, []);
  }

  // ----- Every returned score

  /** Some output track from `first` up to `last` has this channel and program. */
  ghost predicate HasTrackWithin(s: Score, first: nat, last: nat, channel: u4, program: u7) {
    exists i :: first <= i < last && i < |s.tracks| && s.tracks[i].channel == channel && s.tracks[i].program == program
  }

  lemma TracksOfChunk(policy: Policy, grammar: Grammar, body: Bytes, base: nat, k: nat, g: FileRun, s: Score)
    returns (ops: seq<TimedOp>)
    requires ScoreTrack(policy, grammar, body, base, k, g).Ok? && |g.score.segments| == |g.score.tracks|
    requires Continues(ScoreTrack(policy, grammar, body, base, k, g).value.score, s) && |s.segments| == |s.tracks|
    ensures Valid(TrackStart(g).model) && ops == TrackOps(policy, grammar, TraceOf(body, base), TrackStart(g)) && Monotone(ops)
    ensures var first, last := |g.score.tracks|, |ScoreTrack(policy, grammar, body, base, k, g).value.score.tracks|;
            && first <= last <= |s.tracks|
            && (forall channel: u4, program: u7 ::
                 HasTrackWithin(s, first, last, channel, program)
                 <==> NotesFor(ops, |ops|, channel, program) != [] || LyricsFor(ops, |ops|, channel, program) != [])
            && (forall i :: first <= i < last ==>
                 TrackAsRun(s, i, ops) && Selected(s.textData, s.tracks[i].name, NameOf(grammar, TraceOf(body, base), [])))
            && LyricsSelected(ops, EventsOf(TraceOf(body, base)), s.textData)
            && OpsSpelled(grammar, ops, EventsOf(TraceOf(body, base)), 0)
  {
    hide Valid, ScoreTrack, RunTrace, TraceOf, TrackStart, TrackOps, ModelAt, Monotone, InOrder, Emitted, Paired, Holds, Conserved,
      GroupsFrom, TrackAsRun, Selected, LyricsSelected, NameOf, EventsOf, OpsSpelled;
    var run: Run;
    run, ops := DecodedTrack(policy, grammar, body, base, k, g);
    var next, t, n := ScoreTrack(policy, grammar, body, base, k, g).value.score, TraceOf(body, base), |g.score.tracks|;
    var groups := GroupsFrom(run.model, 0);
    GroupsListed(run.model);
    TrackTexts(policy, grammar, t, g, base + |body|, body, base, k);
    SelectedLater(next.textData, s.textData, run.name, NameOf(grammar, t, []));
    LyricsSelectedLater(ops, EventsOf(t), next.textData, s.textData);
    forall i | n <= i < |next.tracks|
      ensures TrackAsRun(s, i, ops) && Selected(s.textData, s.tracks[i].name, NameOf(grammar, t, []))
    {
      var j := i - n;
      assert Emitted(next, n + j, groups[j], k, run.name);
      EmittedLater(next, s, i, groups[j], k, run.name);
      EmittedAsRun(s, i, groups[j], k, run.name, ops);
      EmittedSource(s, i, groups[j], k, run.name);
    }
    forall channel: u4, program: u7
      ensures HasTrackWithin(s, n, |next.tracks|, channel, program) <==> HasTrack(next, n, channel, program)
    {
      SameTracks(next, s, n, channel, program);
    }
  }

  lemma GroupsListed(m: Model)
    requires Valid(m)
    ensures forall j :: 0 <= j < |GroupsFrom(m, 0)| ==>
              var g := GroupsFrom(m, 0)[j]; g.GroupKey() in m.index && m.index[g.GroupKey()] < |m.groups| && g == m.groups[m.index[g.GroupKey()]]
  {
    hide Queued, Shaped, GroupsFrom, Group.IsEmpty;
    GroupsFromAscend(m, 0);
  }

  lemma SameTracks(next: Score, s: Score, from: nat, channel: u4, program: u7)
    requires next.tracks <= s.tracks
    ensures HasTrackWithin(s, from, |next.tracks|, channel, program) <==> HasTrack(next, from, channel, program)
  {}

  lemma LyricsSelectedLater(ops: seq<TimedOp>, es: seq<TimedEvent>, textData: Bytes, later: Bytes)
    requires LyricsSelected(ops, es, textData) && textData <= later
    ensures LyricsSelected(ops, es, later)
  {
    hide Selected, Utf8.Normalize;
    forall i | 0 <= i < |ops| ensures LyricSelected(ops[i].op, es[i], later) {
      assert LyricSelected(ops[i].op, es[i], textData);
      if ops[i].op.Lyric? {
        SelectedLater(textData, later, ops[i].op.text, Utf8.Normalize(es[i].event.payload));
      }
    }
  }

  /** The name and the lyrics of a track, in the text of the score that it was appended to. */
  lemma TrackTexts(policy: Policy, grammar: Grammar, t: Trace, g: FileRun, trackEnd: nat, body: Bytes, base: nat, k: nat)
    requires ScoreTrack(policy, grammar, body, base, k, g).Ok? && |g.score.segments| == |g.score.tracks|
    requires t == TraceOf(body, base) && trackEnd == base + |body|
    ensures Valid(TrackStart(g).model)
    ensures RunTrace(policy, grammar, t, TrackStart(g), trackEnd).Ok?
    ensures var run, textData := RunTrace(policy, grammar, t, TrackStart(g), trackEnd).value,
                                 ScoreTrack(policy, grammar, body, base, k, g).value.score.textData;
            && Selected(textData, run.name, NameOf(grammar, t, []))
            && LyricsSelected(TrackOps(policy, grammar, t, TrackStart(g)), EventsOf(t), textData)
            && OpsSpelled(grammar, TrackOps(policy, grammar, t, TrackStart(g)), EventsOf(t), 0)
  {
    hide Valid, RunTrace, TraceOf, EmitFrom, EmptyModel, Selected, LyricsSelected, NameOf, EventsOf, TrackOps, Emitted, GroupsFrom, OpsSpelled;
    StartModelValid(g);
    var run := RunTrace(policy, grammar, t, TrackStart(g), trackEnd).value;
    NamedTrack(policy, grammar, t, g, trackEnd);
    LyricTexts(policy, grammar, t, TrackStart(g), trackEnd);
    TrackOpsSpelled(policy, grammar, t, TrackStart(g), trackEnd);
    SegmentsKept(policy, grammar, t, TrackStart(g), trackEnd);
    EmitFromEmits(run.model, 0, k, run.name, run.score, trackEnd);
  }

  /**
    Source track by source track: in every returned score the output tracks of
    source track `k` stand together; there is one for each channel and program
    that the track struck or sang, and no other; and each shows what the track's
    operations delivered to it, under the track's last name: exactly its finished
    notes, its rows, and lyrics that select their normalized texts. The operations
    are spelled out by the track's events, status by status and tick by tick.
   */
  lemma TracksOfFile(policy: Policy, grammar: Grammar, data: Bytes, k: nat)
    returns (f: FileRun, ops: seq<TimedOp>, first: nat, last: nat)
    requires ScoreFile(policy, grammar, data).Ok? && HeaderAt(data).Ok? && ChunkAt(ChunksOf(data), k).Some?
    ensures var s, t := ScoreFile(policy, grammar, data).value, TraceOf(ChunkAt(ChunksOf(data), k).value.0, ChunkAt(ChunksOf(data), k).value.1);
            && Valid(TrackStart(f).model) && ops == TrackOps(policy, grammar, t, TrackStart(f)) && Monotone(ops)
            && first <= last <= |s.tracks| == |s.segments|
            && (forall i :: 0 <= i < |s.tracks| ==> (s.tracks[i].sourceTrack == k <==> first <= i < last))
            && (forall channel: u4, program: u7 ::
                 HasTrackWithin(s, first, last, channel, program)
                 <==> NotesFor(ops, |ops|, channel, program) != [] || LyricsFor(ops, |ops|, channel, program) != [])
            && (forall i :: first <= i < last ==>
                 TrackAsRun(s, i, ops) && Selected(s.textData, s.tracks[i].name, NameOf(grammar, t, [])))
            && LyricsSelected(ops, EventsOf(t), s.textData) && OpsSpelled(grammar, ops, EventsOf(t), 0)
  {
    hide Valid, HeaderAt, ScoreChunks, ScoreTrack, ChunksFrom, ChunkAt, TraceOf, TrackStart, TrackOps, ModelAt, Monotone, InOrder,
      TrackAsRun, Selected, LyricsSelected, NameOf, EventsOf, OpsSpelled, HasTrackWithin, Sound, ChunksEnd, ChunksError, StableSort.Sort;
    var header, c := HeaderAt(data).value, ChunksOf(data);
    var s := ScoreFile(policy, grammar, data).value;
    var (body, base) := ChunkAt(c, k).value;
    f := ChunkReached(policy, grammar, c, 0, FileRun(EmptyScore(header.value), 0, 0), k);
    SegmentsMatch(policy, grammar, data);
    ops := TracksOfChunk(policy, grammar, body, base, k, f, s);
    first, last := |f.score.tracks|, |ScoreTrack(policy, grammar, body, base, k, f).value.score.tracks|;
  }

  lemma SegmentsMatch(policy: Policy, grammar: Grammar, data: Bytes)
    requires ScoreFile(policy, grammar, data).Ok? && HeaderAt(data).Ok?
    ensures |ScoreFile(policy, grammar, data).value.segments| == |ScoreFile(policy, grammar, data).value.tracks|
  {
    hide HeaderAt, ScoreFile, ChunksOf, Ascending, Tile;
    ScoreOutcome(policy, grammar, data);
  }

  // ----- From rows back to bytes

  lemma {:induction false} FinishedIsStruck(ops: seq<TimedOp>, n: nat, k: nat, channel: u4, program: u7, note: TickNote)
    requires k <= n <= |ops| && note in Finished(ops, n, k, channel, program)
    ensures Struck(note.time, note.pitch, note.velocity) in NotesFor(ops, k, channel, program)
  {
    hide ProgramAt, StartsOf, StopsOf;
    if note in Finished(ops, n, k - 1, channel, program) {
      FinishedIsStruck(ops, n, k - 1, channel, program, note);
    }
  }

  /** Each note is a message 90 to 9F of the channel, with its pitch, its velocity and its start. */
  ghost predicate NotesSent(notes: seq<TickNote>, channel: u4, es: seq<TimedEvent>) {
    forall note :: note in notes ==>
      && note.pitch < 128 && 0 < note.velocity < 128
      && Sent(es, Channel(0x90 + channel, note.pitch, note.velocity), note.time)
  }

  /** Each control is a message B0 to BF of the channel, with its number and level. */
  ghost predicate ControlsSent(controls: seq<TickControlChange>, channel: u4, es: seq<TimedEvent>) {
    forall row :: row in controls ==> Sent(es, Channel(0xB0 + channel, row.value.number, row.value.level), row.time)
  }

  /** Each bend is a message E0 to EF of the channel, with its value in two groups of seven bits. */
  ghost predicate BendsSent(bends: seq<TickPitchBend>, channel: u4, es: seq<TimedEvent>) {
    forall row :: row in bends ==>
      && -8192 <= row.value < 8192
      && Sent(es, Channel(0xE0 + channel, (row.value + 8192) % 128, (row.value + 8192) / 128), row.time)
  }

  lemma FinishedSent(grammar: Grammar, ops: seq<TimedOp>, es: seq<TimedEvent>, channel: u4, program: u7)
    requires OpsSpelled(grammar, ops, es, 0)
    ensures NotesSent(Finished(ops, |ops|, |ops|, channel, program), channel, es)
  {
    hide Finished, NotesFor, OpsSpelled, Sent;
    forall note | note in Finished(ops, |ops|, |ops|, channel, program)
      ensures note.pitch < 128 && 0 < note.velocity < 128
      ensures Sent(es, Channel(0x90 + channel as int, note.pitch, note.velocity), note.time)
    {
      FinishedIsStruck(ops, |ops|, |ops|, channel, program, note);
      NoteIsEvent(grammar, ops, es, channel, program, Struck(note.time, note.pitch, note.velocity));
    }
  }

  lemma PlacedSent(grammar: Grammar, ops: seq<TimedOp>, es: seq<TimedEvent>, channel: u4, home: Option<u7>)
    requires OpsSpelled(grammar, ops, es, 0)
    ensures ControlsSent(Placed(ops, |ops|, |ops|, channel, home).controls, channel, es)
    ensures BendsSent(Placed(ops, |ops|, |ops|, channel, home).pitchBends, channel, es)
  {
    hide Placed, OpsSpelled, Sent;
    forall row | row in Placed(ops, |ops|, |ops|, channel, home).controls
      ensures Sent(es, Channel(0xB0 + channel as int, row.value.number, row.value.level), row.time)
    {
      ControlIsEvent(grammar, ops, es, channel, home, row);
    }
    forall row | row in Placed(ops, |ops|, |ops|, channel, home).pitchBends
      ensures -8192 <= row.value < 8192
      ensures Sent(es, Channel(0xE0 + channel as int, (row.value + 8192) % 128, (row.value + 8192) / 128), row.time)
    {
      BendIsEvent(grammar, ops, es, channel, home, row);
    }
  }

  /** Every note, control and bend that an output track shows is such a message of its channel. */
  ghost predicate ShowsEvents(s: Score, i: nat, es: seq<TimedEvent>)
    requires i < |s.tracks| && i < |s.segments|
  {
    && NotesSent(s.segments[i].notes, s.tracks[i].channel, es)
    && ControlsSent(RowsOfTrack(s, i).controls, s.tracks[i].channel, es)
    && BendsSent(RowsOfTrack(s, i).pitchBends, s.tracks[i].channel, es)
  }

  lemma RunShowsEvents(grammar: Grammar, s: Score, i: nat, ops: seq<TimedOp>, es: seq<TimedEvent>)
    requires Monotone(ops) && i < |s.tracks| && i < |s.segments|
    requires TrackAsRun(s, i, ops) && OpsSpelled(grammar, ops, es, 0)
    ensures ShowsEvents(s, i, es)
  {
    hide ModelAt, Monotone, Placed, Finished, NotesFor, OpsSpelled, RowsOfTrack, Selects, LyricsFor, NotesSent, ControlsSent, BendsSent;
    FinishedSent(grammar, ops, es, s.tracks[i].channel, s.tracks[i].program);
    PlacedSent(grammar, ops, es, s.tracks[i].channel, Some(s.tracks[i].program));
  }

  /**
    In every returned score each note, control and pitch bend of an output track
    is a message of its channel in its source track, with the same tick, pitch and
    velocity, number and level, or bend in two groups of seven bits.
   */
  lemma RowsAreEvents(policy: Policy, grammar: Grammar, data: Bytes, k: nat, i: nat)
    requires ScoreFile(policy, grammar, data).Ok? && HeaderAt(data).Ok? && ChunkAt(ChunksOf(data), k).Some?
    requires var s := ScoreFile(policy, grammar, data).value; i < |s.tracks| && s.tracks[i].sourceTrack == k
    ensures var s, (body, base) := ScoreFile(policy, grammar, data).value, ChunkAt(ChunksOf(data), k).value;
            i < |s.segments| && ShowsEvents(s, i, EventsOf(TraceOf(body, base)))
  {
    hide Valid, HeaderAt, ScoreFile, ChunksOf, ChunkAt, TraceOf, TrackStart, TrackOps, Monotone, TrackAsRun, Selected,
      LyricsSelected, NameOf, EventsOf, OpsSpelled, HasTrackWithin, ShowsEvents;
    var f, ops, first, last := TracksOfFile(policy, grammar, data, k);
    var (body, base) := ChunkAt(ChunksOf(data), k).value;
    RunShowsEvents(grammar, ScoreFile(policy, grammar, data).value, i, ops, EventsOf(TraceOf(body, base)));
  }
}
