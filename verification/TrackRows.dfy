/**
  Conservation: after any run, each control change, pitch bend and pedal
  interval of a channel sits in exactly one group of that channel or in its
  straggler buffer, and pedal intervals of one channel never overlap.
 */
module TrackRows {
  import opened Base
  import opened Smf
  import opened NoteColumns
  import opened ScoreTypes
  import opened TrackModel
  import opened TrackInvariants
  import opened TrackRuns

  // ----- The rows of one channel, wherever they are

  type Column<!T> = Group -> seq<Timed<T>>

  ghost const CONTROLS: Column<ControlChange> := (g: Group) => g.controls
  ghost const PITCH_BENDS: Column<i16> := (g: Group) => g.pitchBends
  ghost const PEDALS: Column<u64> := (g: Group) => g.pedals

  /** A column that follows a channel's rows from its stragglers to its groups. */
  ghost predicate Carried<T(!new)>(column: Column<T>) {
    && (forall g: Group, h: Group {:trigger column(g), column(h)} ::
          g.controls == h.controls && g.pitchBends == h.pitchBends && g.pedals == h.pedals ==> column(g) == column(h))
    && column(NewGroup(0, 0)) == []
  }

  ghost function Gathered<T>(groups: seq<Group>, n: nat, channel: u4, column: Column<T>): multiset<Timed<T>>
    requires n <= |groups|
  {
    if n == 0 then multiset{}
    else
      Gathered(groups, n - 1, channel, column)
        + if groups[n - 1].channel == channel then multiset(column(groups[n - 1])) else multiset{}
  }

  /** All rows of a channel: in its groups and in its stragglers. */
  ghost function Kept<T>(m: Model, channel: u4, column: Column<T>): multiset<Timed<T>>
    requires Valid(m)
  {
    Gathered(m.groups, |m.groups|, channel, column) + multiset(column(m.stragglers[channel]))
  }

  lemma {:induction false} GatheredSame<T>(a: seq<Group>, b: seq<Group>, n: nat, channel: u4, column: Column<T>)
    requires n <= |a| && n <= |b|
    requires forall i :: 0 <= i < n ==> a[i].channel == b[i].channel && column(a[i]) == column(b[i])
    ensures Gathered(a, n, channel, column) == Gathered(b, n, channel, column)
  {
    if n > 0 {
      GatheredSame(a, b, n - 1, channel, column);
    }
  }

  lemma {:induction false} GatheredUpdate<T>(a: seq<Group>, g: nat, group: Group, n: nat, channel: u4,
                                             column: Column<T>, extra: seq<Timed<T>>)
    requires g < n <= |a| && group.channel == a[g].channel && column(group) == column(a[g]) + extra
    ensures Gathered(a[g := group], n, channel, column)
         == Gathered(a, n, channel, column) + if group.channel == channel then multiset(extra) else multiset{}
  {
    if g == n - 1 {
      GatheredSame(a, a[g := group], n - 1, channel, column);
      assert multiset(column(group)) == multiset(column(a[g])) + multiset(extra);
    } else {
      GatheredUpdate(a, g, group, n - 1, channel, column, extra);
    }
  }

  lemma CarriedTaken<T(!new)>(column: Column<T>, s: Group, g: Group)
    requires Carried(column)
    requires g.controls == s.controls && g.pitchBends == s.pitchBends && g.pedals == s.pedals
    ensures column(g) == column(s) && column(NewGroup(0, 0)) == []
  {}

  /** Moving a channel's stragglers into its new group keeps its rows. */
  lemma KeptEnsureGroup<T(!new)>(m: Model, c: u4, channel: u4, column: Column<T>)
    requires Valid(m) && Carried(column)
    ensures Valid(EnsureGroup(m, c).0) && Kept(EnsureGroup(m, c).0, channel, column) == Kept(m, channel, column)
  {
    hide Queued, Indexed, Carried;
    EnsureGroupValid(m, c);
    var (m', g) := EnsureGroup(m, c);
    if Key(c, m.programs[c]) !in m.index {
      CarriedTaken(column, m.stragglers[c], m'.groups[g]);
      GatheredSame(m.groups, m'.groups, |m.groups|, channel, column);
    }
  }

  /** A group whose column is unchanged changes nothing. */
  lemma KeptWithGroup<T>(m: Model, g: nat, m': Model, channel: u4, column: Column<T>)
    requires Valid(m) && Valid(m') && g < |m.groups| == |m'.groups| && m'.groups == m.groups[g := m'.groups[g]]
    requires m'.stragglers == m.stragglers
    requires m'.groups[g].channel == m.groups[g].channel && column(m'.groups[g]) == column(m.groups[g])
    ensures Kept(m', channel, column) == Kept(m, channel, column)
  {
    hide Queued, Indexed;
    GatheredSame(m.groups, m'.groups, |m.groups|, channel, column);
  }

  /** Rows appended for a channel are added to that channel and to no other. */
  lemma KeptWithCurrent<T>(m: Model, c: u4, group: Group, channel: u4, column: Column<T>, extra: seq<Timed<T>>)
    requires Valid(m) && column(group) == column(Current(m, c)) + extra
    requires group.columns == Current(m, c).columns && group.lyrics == Current(m, c).lyrics
    requires group.channel == Current(m, c).channel && group.program == Current(m, c).program
    ensures Valid(WithCurrent(m, c, group))
    ensures Kept(WithCurrent(m, c, group), channel, column)
         == Kept(m, channel, column) + if c == channel then multiset(extra) else multiset{}
  {
    hide Queued;
    WithCurrentValid(m, c, group);
    CurrentChannel(m, c);
    match Target(m, c)
    case Some(g) => GatheredUpdate(m.groups, g, group, |m.groups|, channel, column, extra);
    case None => assert multiset(column(group)) == multiset(column(m.stragglers[c])) + multiset(extra);
  }

  // ----- What was delivered to a channel

  function ControlsBy(op: TrackOp, time: u64, channel: u4): seq<TickControlChange> {
    if op.Control? && op.channel == channel then [Timed(time, ControlChange(op.number, op.level))] else []
  }

  function ControlsFor(ops: seq<TimedOp>, n: nat, channel: u4): seq<TickControlChange>
    requires n <= |ops|
  {
    if n == 0 then [] else ControlsFor(ops, n - 1, channel) + ControlsBy(ops[n - 1].op, ops[n - 1].time, channel)
  }

  function BendsBy(op: TrackOp, time: u64, channel: u4): seq<TickPitchBend> {
    if op.PitchBend? && op.channel == channel then [Timed(time, op.bend)] else []
  }

  function BendsFor(ops: seq<TimedOp>, n: nat, channel: u4): seq<TickPitchBend>
    requires n <= |ops|
  {
    if n == 0 then [] else BendsFor(ops, n - 1, channel) + BendsBy(ops[n - 1].op, ops[n - 1].time, channel)
  }

  predicate Sustains(op: TrackOp, channel: u4) {
    op.Control? && op.channel == channel && op.number == 64
  }

  /** When the channel's pedal went down, if it is still down: the first press since the last release. */
  function HeldSince(ops: seq<TimedOp>, n: nat, channel: u4): Option<u64>
    requires n <= |ops|
  {
    if n == 0 then None
    else HeldAfter(ops[n - 1].op, ops[n - 1].time, channel, HeldSince(ops, n - 1, channel))
  }

  function HeldAfter(op: TrackOp, time: u64, channel: u4, held: Option<u64>): Option<u64> {
    if !Sustains(op, channel) then held
    else if op.level < 64 then None
    else if held.None? then Some(time) else held
  }

  /** The intervals from each such press to the release that ends it. */
  function PedalsFor(ops: seq<TimedOp>, n: nat, channel: u4): seq<TickPedal>
    requires n <= |ops|
  {
    if n == 0 then []
    else
      PedalsFor(ops, n - 1, channel) + PedalsBy(ops[n - 1].op, ops[n - 1].time, channel, HeldSince(ops, n - 1, channel))
  }

  function PedalsBy(op: TrackOp, time: u64, channel: u4, held: Option<u64>): seq<TickPedal> {
    if Sustains(op, channel) && op.level < 64 && held.Some? && held.value <= time then
      [Timed(held.value, time - held.value)]
    else []
  }

  // ----- Nothing is lost, nothing is repeated

  ghost predicate Conserved(m: Model, channel: u4, controls: multiset<TickControlChange>,
                            bends: multiset<TickPitchBend>, pedals: multiset<TickPedal>, held: Option<u64>)
    requires Valid(m)
  {
    && Kept(m, channel, CONTROLS) == controls
    && Kept(m, channel, PITCH_BENDS) == bends
    && Kept(m, channel, PEDALS) == pedals
    && m.pedalStarts[channel] == held
  }

  lemma ColumnsCarried()
    ensures Carried(CONTROLS) && Carried(PITCH_BENDS) && Carried(PEDALS)
  {}

  /** Notes and lyrics leave the carried columns alone. */
  lemma ConservedAfterEnsure(m: Model, c: u4, m': Model, channel: u4, controls: multiset<TickControlChange>,
                             bends: multiset<TickPitchBend>, pedals: multiset<TickPedal>, held: Option<u64>)
    requires Valid(m) && Conserved(m, channel, controls, bends, pedals, held) && Valid(m')
    requires var (m1, g) := EnsureGroup(m, c);
             && |m'.groups| == |m1.groups| && m'.groups == m1.groups[g := m'.groups[g]]
             && m'.groups[g].(columns := m1.groups[g].columns, lyrics := m1.groups[g].lyrics) == m1.groups[g]
             && m'.stragglers == m1.stragglers && m'.pedalStarts == m1.pedalStarts
    ensures Conserved(m', channel, controls, bends, pedals, held)
  {
    hide Queued, Indexed, Carried, Kept;
    var (m1, g) := EnsureGroup(m, c);
    ColumnsCarried();
    KeptEnsureGroup(m, c, channel, CONTROLS);
    KeptEnsureGroup(m, c, channel, PITCH_BENDS);
    KeptEnsureGroup(m, c, channel, PEDALS);
    KeptWithGroup(m1, g, m', channel, CONTROLS);
    KeptWithGroup(m1, g, m', channel, PITCH_BENDS);
    KeptWithGroup(m1, g, m', channel, PEDALS);
  }

  lemma ConservedNoteOff(m: Model, c: u4, pitch: u7, time: u64, channel: u4, controls: multiset<TickControlChange>,
                         bends: multiset<TickPitchBend>, pedals: multiset<TickPedal>, held: Option<u64>)
    requires Valid(m) && Conserved(m, channel, controls, bends, pedals, held)
    ensures var m' := EndNote(m, c, pitch, time); Valid(m') && Conserved(m', channel, controls, bends, pedals, held)
  {
    hide Indexed, Carried, Kept;
    EndNoteValid(m, c, pitch, time);
    var m', k := EndNote(m, c, pitch, time), Key(c, pitch);
    if m.open[k] != [] {
      assert Queued(m, k, m.open[k]) && OpenAt(m, k, m.open[k][0]);
      var g := m.open[k][0].group;
      KeptWithGroup(m, g, m', channel, CONTROLS);
      KeptWithGroup(m, g, m', channel, PITCH_BENDS);
      KeptWithGroup(m, g, m', channel, PEDALS);
    }
  }

  /** Rows appended to the current group or stragglers of channel `c`. */
  lemma ConservedAppend(m: Model, c: u4, group: Group, channel: u4,
                        moreControls: seq<TickControlChange>, moreBends: seq<TickPitchBend>, morePedals: seq<TickPedal>,
                        controls: multiset<TickControlChange>, bends: multiset<TickPitchBend>,
                        pedals: multiset<TickPedal>, held: Option<u64>)
    requires Valid(m) && Conserved(m, channel, controls, bends, pedals, held)
    requires var now := Current(m, c);
             group == now.(controls := now.controls + moreControls, pitchBends := now.pitchBends + moreBends,
                           pedals := now.pedals + morePedals)
    ensures Valid(WithCurrent(m, c, group))
    ensures Conserved(WithCurrent(m, c, group), channel,
                      if c == channel then controls + multiset(moreControls) else controls,
                      if c == channel then bends + multiset(moreBends) else bends,
                      if c == channel then pedals + multiset(morePedals) else pedals, held)
  {
    hide Queued, Indexed, Kept;
    KeptWithCurrent(m, c, group, channel, CONTROLS, moreControls);
    KeptWithCurrent(m, c, group, channel, PITCH_BENDS, moreBends);
    KeptWithCurrent(m, c, group, channel, PEDALS, morePedals);
  }

  lemma ConservedRelabel(m: Model, m': Model, channel: u4, controls: multiset<TickControlChange>,
                         bends: multiset<TickPitchBend>, pedals: multiset<TickPedal>, held: Option<u64>)
    requires Valid(m) && Valid(m') && Conserved(m, channel, controls, bends, pedals, held)
    requires m'.groups == m.groups && m'.stragglers == m.stragglers
    ensures Conserved(m', channel, controls, bends, pedals, m'.pedalStarts[channel])
  {
    hide Queued, Indexed;
  }

  lemma ConservedPedal(m: Model, c: u4, time: u64, level: u7, channel: u4, controls: multiset<TickControlChange>,
                       bends: multiset<TickPitchBend>, pedals: multiset<TickPedal>, held: Option<u64>)
    requires Valid(m) && Conserved(m, channel, controls, bends, pedals, held)
    requires HandlePedal(m, c, time, level).Ok?
    ensures var m', op := HandlePedal(m, c, time, level).value, Control(c, 64, level);
            && Valid(m')
            && Conserved(m', channel, controls, bends, pedals + multiset(PedalsBy(op, time, channel, held)),
                         HeldAfter(op, time, channel, held))
  {
    hide Queued, Indexed, Conserved, WithCurrent;
    HandlePedalValid(m, c, time, level);
    ConservedHeld(m, channel, controls, bends, pedals, held);
    NothingMore(controls);
    NothingMore(bends);
    NothingMore(pedals);
    var start := m.pedalStarts[c];
    if level >= 64 {
      ConservedRelabel(m, HandlePedal(m, c, time, level).value, channel, controls, bends, pedals, held);
    } else if start.Some? {
      var released, row := m.(pedalStarts := m.pedalStarts[c := None]), Timed(start.value, time - start.value);
      ValidWithout(m, released);
      ConservedRelabel(m, released, channel, controls, bends, pedals, held);
      var group := Current(m, c);
      assert pedals + multiset(PedalsBy(Control(c, 64, level), time, channel, held))
          == if c == channel then pedals + multiset([row]) else pedals;
      ConservedAppend(released, c, group.(pedals := group.pedals + [row]), channel, [], [], [row],
                      controls, bends, pedals, released.pedalStarts[channel]);
    }
  }

  lemma ConservedStep(m: Model, op: TrackOp, time: u64, channel: u4, controls: multiset<TickControlChange>,
                      bends: multiset<TickPitchBend>, pedals: multiset<TickPedal>, held: Option<u64>)
    requires Valid(m) && Conserved(m, channel, controls, bends, pedals, held) && Apply(m, op, time).Ok?
    ensures var m' := Apply(m, op, time).value;
            && Valid(m')
            && Conserved(m', channel, controls + multiset(ControlsBy(op, time, channel)),
                         bends + multiset(BendsBy(op, time, channel)),
                         pedals + multiset(PedalsBy(op, time, channel, held)), HeldAfter(op, time, channel, held))
  {
    hide Valid, Conserved, EndNote, HandlePedal, WithCurrent;
    ApplyValid(m, op, time);
    NothingMore(controls);
    NothingMore(bends);
    NothingMore(pedals);
    match op {
      case NoteOn(c, pitch, velocity) =>
        EnsureGroupValid(m, c);
        ConservedAfterEnsure(m, c, AddNote(m, c, pitch, velocity, time), channel, controls, bends, pedals, held);
      case Lyric(text) =>
        EnsureGroupValid(m, 0);
        ConservedAfterEnsure(m, 0, AddLyric(m, time, text), channel, controls, bends, pedals, held);
      case NoteOff(c, pitch) => ConservedNoteOff(m, c, pitch, time, channel, controls, bends, pedals, held);
      case PitchBend(c, bend) => ConservedBend(m, c, bend, time, channel, controls, bends, pedals, held);
      case Control(c, number, level) =>
        ConservedControl(m, c, number, level, time, channel, controls, bends, pedals, held);
      case ProgramChange(_, _) =>
        ConservedHeld(m, channel, controls, bends, pedals, held);
        ConservedRelabel(m, Apply(m, op, time).value, channel, controls, bends, pedals, held);
      case Ignored =>
    }
  }

  lemma ConservedBend(m: Model, c: u4, bend: i16, time: u64, channel: u4, controls: multiset<TickControlChange>,
                      bends: multiset<TickPitchBend>, pedals: multiset<TickPedal>, held: Option<u64>)
    requires Valid(m) && Conserved(m, channel, controls, bends, pedals, held)
    ensures var m' := AddPitchBend(m, c, time, bend);
            && Valid(m')
            && Conserved(m', channel, controls, bends + multiset(BendsBy(PitchBend(c, bend), time, channel)), pedals, held)
  {
    hide Valid, Conserved, WithCurrent;
    var group, row := Current(m, c), Timed(time, bend);
    assert bends + multiset(BendsBy(PitchBend(c, bend), time, channel)) == if c == channel then bends + multiset([row]) else bends;
    NothingMore(controls);
    NothingMore(pedals);
    ConservedAppend(m, c, group.(pitchBends := group.pitchBends + [row]), channel, [], [row], [],
                    controls, bends, pedals, held);
  }

  lemma ConservedHeld(m: Model, channel: u4, controls: multiset<TickControlChange>,
                      bends: multiset<TickPitchBend>, pedals: multiset<TickPedal>, held: Option<u64>)
    requires Valid(m) && Conserved(m, channel, controls, bends, pedals, held)
    ensures m.pedalStarts[channel] == held
  {}

  lemma ConservedControl(m: Model, c: u4, number: u7, level: u7, time: u64, channel: u4,
                         controls: multiset<TickControlChange>,
                         bends: multiset<TickPitchBend>, pedals: multiset<TickPedal>, held: Option<u64>)
    requires Valid(m) && Conserved(m, channel, controls, bends, pedals, held)
    requires Apply(m, Control(c, number, level), time).Ok?
    ensures var m', op := Apply(m, Control(c, number, level), time).value, Control(c, number, level);
            && Valid(m')
            && Conserved(m', channel, controls + multiset(ControlsBy(op, time, channel)), bends,
                         pedals + multiset(PedalsBy(op, time, channel, held)), HeldAfter(op, time, channel, held))
  {
    hide Valid, Conserved, HandlePedal, WithCurrent;
    var op, group, row := Control(c, number, level), Current(m, c), Timed(time, ControlChange(number, level));
    var more := controls + multiset(ControlsBy(op, time, channel));
    assert more == if c == channel then controls + multiset([row]) else controls;
    ConservedAppend(m, c, group.(controls := group.controls + [row]), channel, [row], [], [],
                    controls, bends, pedals, held);
    NothingMore(bends);
    NothingMore(pedals);
    AddControlValid(m, c, time, number, level);
    if number == 64 {
      ConservedPedal(AddControl(m, c, time, number, level), c, time, level, channel, more, bends, pedals, held);
    }
  }

  lemma NothingMore<T>(rows: multiset<T>)
    ensures rows + multiset([]) == rows
  {}

  lemma ConservedEmpty(channel: u4)
    ensures Valid(EmptyModel()) && Conserved(EmptyModel(), channel, multiset{}, multiset{}, multiset{}, None)
  {}

  /**
    For every run and channel, the rows in the channel's groups together with its
    stragglers are exactly the rows delivered to it, each once; the pedal state
    is the pedal's history.
   */
  lemma {:induction false} RowsConserved(ops: seq<TimedOp>, n: nat, channel: u4)
    requires Monotone(ops) && n <= |ops|
    ensures Conserved(ModelAt(ops, n), channel, multiset(ControlsFor(ops, n, channel)),
                      multiset(BendsFor(ops, n, channel)), multiset(PedalsFor(ops, n, channel)),
                      HeldSince(ops, n, channel))
  {
    hide Valid, InOrder, Apply, Conserved, ModelAt, Monotone;
    if n == 0 {
      ModelStart(ops);
      ConservedEmpty(channel);
    } else {
      RowsConserved(ops, n - 1, channel);
      ModelStep(ops, n);
      ConservedStep(ModelAt(ops, n - 1), ops[n - 1].op, ops[n - 1].time, channel,
                    multiset(ControlsFor(ops, n - 1, channel)), multiset(BendsFor(ops, n - 1, channel)),
                    multiset(PedalsFor(ops, n - 1, channel)), HeldSince(ops, n - 1, channel));
    }
  }

  ghost predicate Disjoint(pedals: seq<TickPedal>, bound: nat) {
    && (forall i, j :: 0 <= i < j < |pedals| ==> pedals[i].time + pedals[i].value <= pedals[j].time)
    && (forall i :: 0 <= i < |pedals| ==> pedals[i].time + pedals[i].value <= bound)
  }

  /** A channel's pedal intervals follow each other without overlap, also before a pedal still held. */
  lemma {:induction false} PedalsNeverOverlap(ops: seq<TimedOp>, n: nat, channel: u4)
    requires Monotone(ops) && n <= |ops|
    ensures var held := HeldSince(ops, n, channel);
            && (held.Some? ==> held.value <= TimeAt(ops, n))
            && Disjoint(PedalsFor(ops, n, channel), if held.Some? then held.value else TimeAt(ops, n))
  {
    if n > 0 {
      PedalsNeverOverlap(ops, n - 1, channel);
    }
  }
}
