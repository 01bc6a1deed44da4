/**
  The operations of a track against the bytes of its events: which operation a
  message of each literal status is, at which tick, and with which values.
 */
module TrackSpelling {
  import opened Base
  import opened Smf
  import opened Wire
  import opened ScoreTypes
  import opened TrackModel
  import opened TrackRuns
  import opened TrackGroups
  import opened TrackRows
  import opened TrackPlacement
  import opened ScoreGrammar
  import opened ScoreTheorems

  // ----- Operations and events

  /** What the score makes of an event, status by status; poly pressure, channel pressure and system events are nothing. */
  predicate OpSpelled(op: TrackOp, event: Event) {
    match event
    case Channel(status, first, second) =>
      if 0x80 <= status <= 0x8F then op == NoteOff(status - 0x80, first)
      else if 0x90 <= status <= 0x9F then
        op == if second == 0 then NoteOff(status - 0x90, first) else NoteOn(status - 0x90, first, second)
      else if 0xB0 <= status <= 0xBF then op == Control(status - 0xB0, first, second)
      else if 0xC0 <= status <= 0xCF then op == ProgramChange(status - 0xC0, first)
      else if 0xE0 <= status <= 0xEF then
        op.PitchBend? && op.channel == status - 0xE0 && BendSpelled(op.bend, first, second)
      else op == Ignored
    case Meta(metaType, payload) => if metaType == 0x05 && payload != [] then op.Lyric? else op == Ignored
    case SysEx(_, _) => op == Ignored
  }

  /** A bend, centred at 8192, in two groups of seven bits, least significant first. */
  predicate BendSpelled(bend: i16, first: u7, second: u7) {
    -8192 <= bend < 8192 && first == (bend + 8192) % 128 && second == (bend + 8192) / 128
  }

  /**
    The operations are the events up to where the grammar stops reading, one
    each, at ticks that add up the deltas from `time` on.
   */
  predicate OpsSpelled(grammar: Grammar, ops: seq<TimedOp>, es: seq<TimedEvent>, time: nat)
    decreases |es|
  {
    if es == [] || (!grammar.Legacy? && es[0].event.Meta? && es[0].event.metaType == 0x2F) then ops == []
    else
      && ops != [] && OpSpelled(ops[0].op, es[0].event) && ops[0].time == time + es[0].delta
      && OpsSpelled(grammar, ops[1..], es[1..], time + es[0].delta)
  }

  /** Every bend of a channel is what the message that spells it delivers. */
  lemma BendRoundTrip(channel: u4, bend: i16)
    requires -8192 <= bend < 8192
    ensures OpOf(0xE0 + channel, (bend + 8192) % 128, (bend + 8192) / 128) == PitchBend(channel, bend)
  {
    assert (0xE0 + channel) / 16 == 0xE && (0xE0 + channel) % 16 == channel;
  }

  lemma OpOfSpelled(status: ChannelStatus, first: u7, second: u7)
    ensures OpSpelled(OpOf(status, first, second), Channel(status, first, second))
  {
    var kind, channel := status / 16, status % 16;
    assert status == kind * 16 + channel;
    BendBack(first, second);
  }

  lemma BendBack(first: u7, second: u7)
    ensures BendSpelled(first + second * 0x80 - 8192, first, second)
  {}

  lemma EventOpSpelled(policy: Policy, run: Run, e: TimedEvent)
    requires Valid(run.model) && Perform(policy, run, e).Ok?
    ensures OpSpelled(EventOp(policy, run, e), e.event)
  {
    hide Valid, OpOf, Apply, AddLyric, PushText;
    if e.event.Channel? {
      OpOfSpelled(e.event.status, e.event.first, e.event.second);
    }
  }

  /** The operations of a track that runs to its end are spelled out by its events. */
  lemma {:induction false} TrackOpsSpelled(policy: Policy, grammar: Grammar, t: Trace, run: Run, trackEnd: nat)
    requires Valid(run.model) && RunTrace(policy, grammar, t, run, trackEnd).Ok?
    ensures OpsSpelled(grammar, TrackOps(policy, grammar, t, run), EventsOf(t), run.time)
    decreases t
  {
    hide Valid, Perform, EventOp, OpSpelled;
    var es := EventsOf(t);
    if t.Step? {
      assert es[0] == t.head && es[1..] == EventsOf(t.rest);
      if !(grammar.StopsAtEndOfTrack() && IsEndOfTrack(t.head.event)) {
        var now := run.(time := run.time + t.head.delta);
        PerformValid(policy, now, t.head);
        EventOpSpelled(policy, now, t.head);
        var next := Perform(policy, now, t.head).value;
        PerformIsApply(policy, now, t.head);
        TrackOpsSpelled(policy, grammar, t.rest, next, trackEnd);
        var ops := TrackOps(policy, grammar, t, run);
        assert ops[0] == TimedOp(EventOp(policy, now, t.head), now.time) && ops[1..] == TrackOps(policy, grammar, t.rest, next);
      }
    }
  }

  // ----- One operation at a time

  /** The tick of the `n`-th event: the deltas up to it. */
  function TickOf(es: seq<TimedEvent>, n: nat): nat
    requires n <= |es|
  {
    if n == 0 then 0 else TickOf(es, n - 1) + es[n - 1].delta
  }

  lemma {:induction false} TickOfRest(es: seq<TimedEvent>, n: nat)
    requires 0 < n <= |es|
    ensures TickOf(es, n) == es[0].delta + TickOf(es[1..], n - 1)
  {
    if n > 1 {
      TickOfRest(es, n - 1);
      assert es[1..][n - 2] == es[n - 1];
    }
  }

  lemma {:induction false} OpAt(grammar: Grammar, ops: seq<TimedOp>, es: seq<TimedEvent>, time: nat, i: nat)
    requires OpsSpelled(grammar, ops, es, time) && i < |ops|
    ensures i < |es| && OpSpelled(ops[i].op, es[i].event) && ops[i].time == time + TickOf(es, i + 1)
    decreases i
  {
    hide OpSpelled;
    TickOfRest(es, 1);
    if i > 0 {
      OpAt(grammar, ops[1..], es[1..], time + es[0].delta, i - 1);
      TickOfRest(es, i + 1);
    }
  }

  // ----- Rows and events

  /** Some event of the track is this channel message, at this tick. */
  ghost predicate Sent(es: seq<TimedEvent>, message: Event, tick: nat) {
    exists j :: 0 <= j < |es| && es[j].event == message && TickOf(es, j + 1) == tick
  }

  lemma SentBy(grammar: Grammar, ops: seq<TimedOp>, es: seq<TimedEvent>, i: nat, message: Event)
    requires OpsSpelled(grammar, ops, es, 0) && i < |ops|
    requires i < |es| ==> OpSpelled(ops[i].op, es[i].event) ==> es[i].event == message
    ensures Sent(es, message, ops[i].time)
  {
    hide OpsSpelled, OpSpelled, TickOf;
    OpAt(grammar, ops, es, 0, i);
  }

  lemma {:induction false} PlacedControl(ops: seq<TimedOp>, n: nat, k: nat, channel: u4, home: Option<u7>, a: TickControlChange)
      returns (i: nat)
    requires k <= n <= |ops| && a in Placed(ops, n, k, channel, home).controls
    ensures i < k && ops[i].op == Control(channel, a.value.number, a.value.level) && ops[i].time == a.time
  {
    hide Home, PedalsBy, BendsBy;
    if a in Placed(ops, n, k - 1, channel, home).controls {
      i := PlacedControl(ops, n, k - 1, channel, home, a);
    } else {
      i := k - 1;
    }
  }

  lemma {:induction false} PlacedBend(ops: seq<TimedOp>, n: nat, k: nat, channel: u4, home: Option<u7>, a: TickPitchBend)
      returns (i: nat)
    requires k <= n <= |ops| && a in Placed(ops, n, k, channel, home).pitchBends
    ensures i < k && ops[i].op == PitchBend(channel, a.value) && ops[i].time == a.time
  {
    hide Home, PedalsBy, ControlsBy;
    if a in Placed(ops, n, k - 1, channel, home).pitchBends {
      i := PlacedBend(ops, n, k - 1, channel, home, a);
    } else {
      i := k - 1;
    }
  }

  lemma {:induction false} StruckNote(ops: seq<TimedOp>, n: nat, channel: u4, program: u7, a: Struck) returns (i: nat)
    requires n <= |ops| && a in NotesFor(ops, n, channel, program)
    ensures i < n && a.pitch < 128 && a.velocity < 128 && ops[i].op == NoteOn(channel, a.pitch, a.velocity) && ops[i].time == a.time
  {
    hide ProgramAt;
    if a in NotesFor(ops, n - 1, channel, program) {
      i := StruckNote(ops, n - 1, channel, program, a);
    } else {
      i := n - 1;
    }
  }

  /** A delivered control is the message B0 to BF of its channel with its number and level as data. */
  lemma ControlIsEvent(grammar: Grammar, ops: seq<TimedOp>, es: seq<TimedEvent>, channel: u4, home: Option<u7>, a: TickControlChange)
    requires OpsSpelled(grammar, ops, es, 0) && a in Placed(ops, |ops|, |ops|, channel, home).controls
    ensures Sent(es, Channel(0xB0 + channel, a.value.number, a.value.level), a.time)
  {
    hide Placed, OpsSpelled, Sent;
    var i := PlacedControl(ops, |ops|, |ops|, channel, home, a);
    SentBy(grammar, ops, es, i, Channel(0xB0 + channel, a.value.number, a.value.level));
  }

  /** A delivered bend is the message E0 to EF of its channel with its value in two groups of seven bits. */
  lemma BendIsEvent(grammar: Grammar, ops: seq<TimedOp>, es: seq<TimedEvent>, channel: u4, home: Option<u7>, a: TickPitchBend)
    requires OpsSpelled(grammar, ops, es, 0) && a in Placed(ops, |ops|, |ops|, channel, home).pitchBends
    ensures -8192 <= a.value < 8192 && Sent(es, Channel(0xE0 + channel, (a.value + 8192) % 128, (a.value + 8192) / 128), a.time)
  {
    hide Placed, OpsSpelled, Sent;
    var i := PlacedBend(ops, |ops|, |ops|, channel, home, a);
    OpAt(grammar, ops, es, 0, i);
    SentBy(grammar, ops, es, i, Channel(0xE0 + channel, (a.value + 8192) % 128, (a.value + 8192) / 128));
  }

  /** A struck note is the message 90 to 9F of its channel with its pitch and its velocity, which is not zero. */
  lemma NoteIsEvent(grammar: Grammar, ops: seq<TimedOp>, es: seq<TimedEvent>, channel: u4, program: u7, a: Struck)
    requires OpsSpelled(grammar, ops, es, 0) && a in NotesFor(ops, |ops|, channel, program)
    ensures a.pitch < 128 && 0 < a.velocity < 128 && Sent(es, Channel(0x90 + channel, a.pitch, a.velocity), a.time)
  {
    hide NotesFor, OpsSpelled, Sent;
    var i := StruckNote(ops, |ops|, channel, program, a);
    OpAt(grammar, ops, es, 0, i);
    SentBy(grammar, ops, es, i, Channel(0x90 + channel, a.pitch, a.velocity));
  }
}
