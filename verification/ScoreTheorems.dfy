/** Main results about score parsing that combine the invariants of the parts. */
module ScoreTheorems {
  import opened Base
  import opened Smf
  import opened Wire
  import opened Scan
  import opened ScoreTypes
  import opened TrackModel
  import opened TrackInvariants
  import opened TrackRuns
  import opened TrackGroups
  import opened TrackRows
  import TrackPlacement
  import opened Scores
  import opened ScoreEmission
  import opened ScoreGrammar
  import opened ScoreBounds
  import opened ScoreBudgets

  // ----- Overflow

  /** No input makes an absolute tick overflow: a track is too short for that. */
  lemma TicksNeverOverflow(policy: Policy, grammar: Grammar, data: Bytes)
    ensures var r := ScoreFile(policy, grammar, data); r.Err? ==> !r.error.kind.TickOverflow?
  {
    hide HeaderAt, ScoreChunks, ChunksFrom, ChunksOf, Sound, ChunksEnd;
    if HeaderAt(data).Ok? {
      ScoreOutcome(policy, grammar, data);
      if grammar.Legacy? {
        ChunksErrorStructural(data, HeaderAt(data).value.next, HeaderAt(data).value.value.trackCount);
        WholeFileChunks(data);
      }
    }
  }

  lemma WholeFileChunks(data: Bytes)
    requires HeaderAt(data).Ok?
    ensures ChunksOf(data) == ChunksFrom(data, HeaderAt(data).value.next, HeaderAt(data).value.value.trackCount)
  {}

  lemma {:induction false} ChunksErrorStructural(data: Bytes, p: nat, count: nat)
    requires p <= |data|
    ensures var e := ChunksError(ChunksFrom(data, p, count)); e.Some? ==> Structural(e.value.kind)
    decreases count
  {
    hide FrameAt, TraceFrom;
    var c := ChunksFrom(data, p, count);
    if c.Chunk? {
      TraceErrorStructural(c.body, 0, c.base, None);
      ChunksErrorStructural(data, c.base + |c.body|, count - 1);
    }
  }

  /** Below a third of 4 GiB no offset or count of a score overflows its `u32`. */
  lemma SmallFilesNeverOverflow(policy: Policy, grammar: Grammar, data: Bytes)
    requires 3 * |data| <= U32_MAX
    ensures var r := ScoreFile(policy, grammar, data); r.Err? ==> !r.error.kind.SizeOverflow?
  {
    hide HeaderAt, ScoreChunks, ChunksFrom, ChunksOf, Sound, ChunksEnd;
    if HeaderAt(data).Ok? {
      ScoreOutcome(policy, grammar, data);
      if grammar.Legacy? {
        ChunksErrorStructural(data, HeaderAt(data).value.next, HeaderAt(data).value.value.trackCount);
        WholeFileChunks(data);
      }
    }
  }

  // ----- Agreement with the structural scan

  lemma {:induction false} ScanTraceError(t: Trace, s: Summary)
    ensures match TraceError(t)
            case Some(e) => ScanTrace(t, s) == Err(e)
            case None => ScanTrace(t, s).Ok?
  {
    if t.Step? {
      ScanTraceError(t.rest, Tallied(s, t.head.delta, t.head.event));
    }
  }

  lemma {:induction false} ScanChunksError(c: Chunks, s: Summary)
    ensures match ChunksError(c)
            case Some(e) => ScanChunks(c, s) == Err(e)
            case None =>
              && ScanChunks(c, s).Ok?
              && ChunksEnd(c) == Some((ScanChunks(c, s).value.bytesConsumed, ScanChunks(c, s).value.trailingBytes))
  {
    hide TraceOf, ScanTrace, TraceError;
    if c.Chunk? {
      var t := TraceOf(c.body, c.base);
      ScanTraceError(t, s);
      if TraceError(t).None? {
        ScanChunksError(c.rest, ScanTrace(t, s).value);
      }
    }
  }

  lemma {:induction false} ScanTraceReads(t: Trace, s: Summary)
    requires ScanTrace(t, s).Ok?
    ensures ScanTrace(t, s).value.events == s.events + EventsRead(Legacy, t)
  {
    if t.Step? {
      ScanTraceReads(t.rest, Tallied(s, t.head.delta, t.head.event));
    }
  }

  lemma {:induction false} ScanChunksReads(c: Chunks, s: Summary)
    requires ScanChunks(c, s).Ok?
    ensures ScanChunks(c, s).value.events == s.events + FileEventsRead(Legacy, c)
  {
    hide TraceOf, ScanTrace, EventsRead;
    if c.Chunk? {
      ScanTraceReads(TraceOf(c.body, c.base), s);
      ScanChunksReads(c.rest, ScanTrace(TraceOf(c.body, c.base), s).value);
    }
  }

  /** The trusted decoder reads as many events as the scan counts, so the scan tells which event limits suffice. */
  lemma LegacyReadsScan(data: Bytes)
    requires ScanFile(data).Ok?
    ensures HeaderAt(data).Ok? && FileEventsRead(Legacy, ChunksOf(data)) == ScanFile(data).value.events
  {
    hide HeaderAt, ChunksFrom, ScanChunks, FileEventsRead;
    ScanChunksReads(ChunksOf(data), Started(HeaderAt(data).value.value));
  }

  // ----- Budgets

  /** With every limit at its maximum the bounded parser is the trusted parser, on every slice. */
  lemma UnlimitedIsTrusted(grammar: Grammar, data: Bytes)
    requires |data| <= ISIZE_MAX
    ensures ScoreFile(Some(UNLIMITED), grammar, data) == ScoreFile(None, grammar, data)
  {
    hide HeaderAt, ScoreChunks, ChunksFrom, ChunksOf, Sound, ChunksEnd, ChunksError;
    var p := Some(UNLIMITED);
    BudgetsNeverChangeMeaning(p, None, grammar, data);
    if HeaderAt(data).Ok? {
      ScoreOutcome(p, grammar, data);
      if grammar.Legacy? {
        WholeFileChunks(data);
        ChunksErrorStructural(data, HeaderAt(data).value.next, HeaderAt(data).value.value.trackCount);
      }
    }
  }

  /** A bounded parse never returns more rows or text than its limits allow. */
  lemma BudgetBoundsScore(limits: Limits, grammar: Grammar, data: Bytes)
    requires ScoreFile(Some(limits), grammar, data).Ok?
    ensures var s := ScoreFile(Some(limits), grammar, data).value;
            && RowCount(s) <= limits.maxEvents && |s.textData| <= limits.maxTextBytes
            && |data| <= limits.maxInputBytes && s.header.trackCount <= limits.maxSourceTracks
  {
    hide HeaderAt, ScoreChunks, ChunksFrom, ChunksOf, ChunksEnd, ChunksError, Tiled;
    ScoreOutcome(Some(limits), grammar, data);
  }

  // ----- From bytes to notes

  /** The track operation of one event, at the state it meets. */
  function EventOp(policy: Policy, run: Run, e: TimedEvent): TrackOp {
    match e.event
    case Channel(status, first, second) => OpOf(status, first, second)
    case Meta(metaType, payload) =>
      if metaType == 0x05 && payload != [] then
        match PushText(policy, run.score, payload, e.offset, e.end)
        case Ok(pushed) => Lyric(pushed.1)
        case Err(_) => Ignored
      else Ignored
    case SysEx(_, _) => Ignored
  }

  /** The operations of a whole track, one per event, at their absolute ticks. */
  function TrackOps(policy: Policy, grammar: Grammar, t: Trace, run: Run): (ops: seq<TimedOp>)
    requires Valid(run.model)
    decreases t
  {
    if !t.Step? then []
    else
      match Advance(run.time, t.head.delta, t.head.deltaOffset)
      case Err(_) => []
      case Ok(time) =>
        if grammar.StopsAtEndOfTrack() && IsEndOfTrack(t.head.event) then []
        else
          var now := run.(time := time);
          PerformValid(policy, now, t.head);
          match Perform(policy, now, t.head)
          case Err(_) => []
          case Ok(next) => [TimedOp(EventOp(policy, now, t.head), time)] + TrackOps(policy, grammar, t.rest, next)
  }

  lemma PerformIsApply(policy: Policy, run: Run, e: TimedEvent)
    requires Valid(run.model) && Perform(policy, run, e).Ok?
    ensures Apply(run.model, EventOp(policy, run, e), run.time) == Ok(Perform(policy, run, e).value.model)
    ensures Perform(policy, run, e).value.time == run.time
  {
    hide Valid, AddNote, EndNote, AddControl, HandlePedal, AddPitchBend, SetProgram, AddLyric, PushText;
  }

  lemma {:induction false} ModelAtPrefix(a: seq<TimedOp>, b: seq<TimedOp>, n: nat)
    requires Monotone(a) && Monotone(b) && n <= |a| <= |b| && a == b[..|a|]
    ensures ModelAt(a, n) == ModelAt(b, n)
  {
    hide Valid, InOrder, Apply, ModelAt, Monotone;
    if n == 0 {
      ModelStart(a);
      ModelStart(b);
    } else {
      ModelAtPrefix(a, b, n - 1);
      ModelStep(a, n);
      ModelStep(b, n);
      assert a[n - 1] == b[n - 1];
    }
  }

  ghost predicate Reached(run: Run, ops: seq<TimedOp>) {
    && Monotone(ops) && TimeAt(ops, |ops|) <= run.time
    && run.model == ModelAt(ops, |ops|)
  }

  lemma MonotoneAppend(ops: seq<TimedOp>, op: TimedOp)
    requires Monotone(ops) && TimeAt(ops, |ops|) <= op.time
    ensures Monotone(ops + [op])
  {}

  lemma ReachedStep(run: Run, ops: seq<TimedOp>, op: TrackOp, time: u64, next: Run)
    requires Reached(run, ops) && run.time <= time && Apply(run.model, op, time) == Ok(next.model) && next.time == time
    ensures Reached(next, ops + [TimedOp(op, time)])
  {
    hide Valid, InOrder, Apply, ModelAt, Monotone;
    var more := ops + [TimedOp(op, time)];
    MonotoneAppend(ops, TimedOp(op, time));
    ModelAtPrefix(ops, more, |ops|);
    ModelStep(more, |more|);
  }

  /** The state a track ends in is the run of its operations, whose times never decrease. */
  lemma {:induction false} TraceIsRun(policy: Policy, grammar: Grammar, t: Trace, run: Run, trackEnd: nat, ops: seq<TimedOp>)
    requires Valid(run.model) && Reached(run, ops) && RunTrace(policy, grammar, t, run, trackEnd).Ok?
    ensures Reached(RunTrace(policy, grammar, t, run, trackEnd).value, ops + TrackOps(policy, grammar, t, run))
    decreases t
  {
    hide Valid, Perform, EventOp, Apply, Reached;
    var all := TrackOps(policy, grammar, t, run);
    if !t.Step? {
      assert ops + all == ops;
    } else {
      var now := run.(time := run.time + t.head.delta);
      if grammar.StopsAtEndOfTrack() && IsEndOfTrack(t.head.event) {
        assert ops + all == ops;
        ReachedLater(run, ops, EndTrack(policy, grammar, now, t.head).value);
      } else {
        PerformValid(policy, now, t.head);
        var next := Perform(policy, now, t.head).value;
        PerformIsApply(policy, now, t.head);
        var op := TimedOp(EventOp(policy, now, t.head), now.time);
        ReachedStep(run, ops, op.op, op.time, next);
        TraceIsRun(policy, grammar, t.rest, next, trackEnd, ops + [op]);
        assert ops + all == ops + [op] + TrackOps(policy, grammar, t.rest, next);
      }
    }
  }

  lemma ReachedLater(run: Run, ops: seq<TimedOp>, later: Run)
    requires Reached(run, ops) && later.model == run.model && run.time <= later.time
    ensures Reached(later, ops)
  {}

  /** Some output track from `from` on has this channel and program. */
  ghost predicate HasTrack(s: Score, from: nat, channel: u4, program: u7) {
    exists i :: from <= i < |s.tracks| && s.tracks[i].channel == channel && s.tracks[i].program == program
  }

  /** The emitted tracks have exactly the keys of the non-empty groups. */
  lemma TrackKeys(m: Model, s: Score, from: nat, sourceTrack: nat, name: TextRange, channel: u4, program: u7)
    requires Valid(m) && |s.tracks| == from + |GroupsFrom(m, 0)|
    requires forall j :: 0 <= j < |GroupsFrom(m, 0)| ==> Emitted(s, from + j, GroupsFrom(m, 0)[j], sourceTrack, name)
    ensures HasTrack(s, from, channel, program)
       <==> Key(channel, program) in m.index && !m.groups[m.index[Key(channel, program)]].IsEmpty()
  {
    hide Queued, Shaped, GroupsFrom, Group.IsEmpty, Selects;
    var groups, key := GroupsFrom(m, 0), Key(channel, program);
    GroupsFromAscend(m, 0);
    if HasTrack(s, from, channel, program) {
      var i :| from <= i < |s.tracks| && s.tracks[i].channel == channel && s.tracks[i].program == program;
      assert Emitted(s, from + (i - from), groups[i - from], sourceTrack, name);
      assert groups[i - from].GroupKey() == key;
    }
    if key in m.index && !m.groups[m.index[key]].IsEmpty() {
      GroupsFromHas(m, 0, key);
      var j :| 0 <= j < |groups| && groups[j] == m.groups[m.index[key]];
      assert Emitted(s, from + j, groups[j], sourceTrack, name);
      TrackPlacement.KeyInjective(groups[j].channel, groups[j].program, channel, program);
    }
  }

  /** A group that holds its deliveries is never empty. */
  lemma HoldsSome(m: Model, channel: u4, program: u7, notes: seq<Struck>, lyrics: seq<TickText>)
    requires Valid(m) && Holds(m, channel, program, notes, lyrics)
    ensures (Key(channel, program) in m.index && !m.groups[m.index[Key(channel, program)]].IsEmpty())
       <==> notes != [] || lyrics != []
  {}

  /**
    From bytes to notes: a decoded track appends one output track for each channel
    and program that was struck or sung, and no other, each with all the rows of
    its group; the notes pair the track's note-ons and note-offs first in, first
    out; the groups hold exactly the notes and lyrics delivered to them; and the
    final state, its groups and its stragglers together, holds each control, bend
    and pedal of a channel once. Rows left in the stragglers are not emitted:
    `ScorePlacement.RowsReachScore` says which.
   */
  lemma DecodedTrack(policy: Policy, grammar: Grammar, body: Bytes, base: nat, sourceTrack: nat, f: FileRun)
    returns (run: Run, ops: seq<TimedOp>)
    requires ScoreTrack(policy, grammar, body, base, sourceTrack, f).Ok? && |f.score.segments| == |f.score.tracks|
    ensures Valid(run.model) && Monotone(ops) && run.model == ModelAt(ops, |ops|)
    ensures Valid(TrackStart(f).model) && ops == TrackOps(policy, grammar, TraceOf(body, base), TrackStart(f))
    ensures RunTrace(policy, grammar, TraceOf(body, base), TrackStart(f), base + |body|) == Ok(run)
    ensures var s, groups := ScoreTrack(policy, grammar, body, base, sourceTrack, f).value.score, GroupsFrom(run.model, 0);
            && |s.tracks| == |f.score.tracks| + |groups|
            && forall j :: 0 <= j < |groups| ==> Emitted(s, |f.score.tracks| + j, groups[j], sourceTrack, run.name)
    ensures forall channel: u4, program: u7 ::
              HasTrack(ScoreTrack(policy, grammar, body, base, sourceTrack, f).value.score, |f.score.tracks|, channel, program)
              <==> NotesFor(ops, |ops|, channel, program) != [] || LyricsFor(ops, |ops|, channel, program) != []
    ensures forall k: nat :: k < KEYS ==>
              Paired(run.model, k, PlacesOf(ops, |ops|, k), StartsOf(ops, |ops|, k), StopsOf(ops, |ops|, k))
    ensures forall channel: u4, program: u7 ::
              Holds(run.model, channel, program, NotesFor(ops, |ops|, channel, program), LyricsFor(ops, |ops|, channel, program))
    ensures forall channel: u4 ::
              Conserved(run.model, channel, multiset(ControlsFor(ops, |ops|, channel)), multiset(BendsFor(ops, |ops|, channel)),
                        multiset(PedalsFor(ops, |ops|, channel)), HeldSince(ops, |ops|, channel))
  {
    hide Shaped, Indexed, Queued, InOrder, RunTrace, TrackOps, TraceOf, EmitFrom, Emitted, Paired, Holds, Conserved, ModelAt, Monotone,
      HasTrack, GroupsFrom;
    EmptyModelInOrder(0);
    var t, start := TraceOf(body, base), TrackStart(f);
    run := RunTrace(policy, grammar, t, start, base + |body|).value;
    ops := TrackOps(policy, grammar, t, start);
    ReachedStart(start);
    TraceIsRun(policy, grammar, t, start, base + |body|, []);
    assert [] + ops == ops;
    RunKeepsTracks(policy, grammar, t, start, base + |body|);
    EmitFromEmits(run.model, 0, sourceTrack, run.name, run.score, base + |body|);
    forall k: nat | k < KEYS
      ensures Paired(run.model, k, PlacesOf(ops, |ops|, k), StartsOf(ops, |ops|, k), StopsOf(ops, |ops|, k))
    {
      NotesPairInOrder(ops, |ops|, k);
    }
    forall channel: u4, program: u7
      ensures Holds(run.model, channel, program, NotesFor(ops, |ops|, channel, program), LyricsFor(ops, |ops|, channel, program))
    {
      GroupsHoldDeliveries(ops, |ops|, channel, program);
    }
    var s := ScoreTrack(policy, grammar, body, base, sourceTrack, f).value.score;
    forall channel: u4, program: u7
      ensures HasTrack(s, |f.score.tracks|, channel, program)
         <==> NotesFor(ops, |ops|, channel, program) != [] || LyricsFor(ops, |ops|, channel, program) != []
    {
      TrackKeys(run.model, s, |f.score.tracks|, sourceTrack, run.name, channel, program);
      HoldsSome(run.model, channel, program, NotesFor(ops, |ops|, channel, program), LyricsFor(ops, |ops|, channel, program));
    }
    forall channel: u4
      ensures Conserved(run.model, channel, multiset(ControlsFor(ops, |ops|, channel)), multiset(BendsFor(ops, |ops|, channel)),
                        multiset(PedalsFor(ops, |ops|, channel)), HeldSince(ops, |ops|, channel))
    {
      RowsConserved(ops, |ops|, channel);
    }
  }

  lemma ReachedStart(run: Run)
    requires run.model == EmptyModel()
    ensures Reached(run, [])
  {
    ModelStart([]);
  }
}
