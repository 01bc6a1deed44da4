/**
  Placement: which group each control change, pitch bend and pedal interval ends
  up in, and which of them never reach a group, said in terms of the operations
  alone.
 */
module TrackPlacement {
  import opened Base
  import opened Smf
  import opened NoteColumns
  import opened ScoreTypes
  import opened TrackModel
  import opened TrackInvariants
  import opened TrackRuns
  import opened TrackGroups
  import opened TrackRows

  // ----- The rows that may have to wait for a group

  datatype Rows = Rows(controls: seq<TickControlChange>, pitchBends: seq<TickPitchBend>, pedals: seq<TickPedal>)

  const NO_ROWS := Rows([], [], [])

  function Plus(a: Rows, b: Rows): Rows {
    Rows(a.controls + b.controls, a.pitchBends + b.pitchBends, a.pedals + b.pedals)
  }

  function RowsOf(g: Group): Rows {
    Rows(g.controls, g.pitchBends, g.pedals)
  }

  /** What one operation delivers to a channel. */
  function DeliveredBy(op: TrackOp, time: u64, channel: u4, held: Option<u64>): Rows {
    Rows(ControlsBy(op, time, channel), BendsBy(op, time, channel), PedalsBy(op, time, channel, held))
  }

  function RowsBy(ops: seq<TimedOp>, i: nat, channel: u4): Rows
    requires i < |ops|
  {
    DeliveredBy(ops[i].op, ops[i].time, channel, HeldSince(ops, i, channel))
  }

  /** What the first `n` operations deliver to a channel. */
  function RowsFor(ops: seq<TimedOp>, n: nat, channel: u4): Rows
    requires n <= |ops|
  {
    Rows(ControlsFor(ops, n, channel), BendsFor(ops, n, channel), PedalsFor(ops, n, channel))
  }

  // ----- Homes

  /** Operations that need their channel's group: its note-ons, and every lyric for channel zero. */
  predicate NeedsGroup(op: TrackOp, channel: u4) {
    (op.NoteOn? && op.channel == channel) || (op.Lyric? && channel == 0)
  }

  /** Some earlier operation needed the group of this channel and program. */
  predicate HasGroup(ops: seq<TimedOp>, n: nat, channel: u4, program: u7)
    requires n <= |ops|
  {
    exists j :: 0 <= j < n && NeedsGroup(ops[j].op, channel) && ProgramAt(ops, j, channel) == program
  }

  /** The first operation that needs the group of its channel and program. */
  predicate Creates(ops: seq<TimedOp>, i: nat, channel: u4)
    requires i < |ops|
  {
    NeedsGroup(ops[i].op, channel) && !HasGroup(ops, i, channel, ProgramAt(ops, i, channel))
  }

  /**
    The program whose group holds, after `n` operations, what operation `i`
    delivered to a channel: the program then current if it had a group, otherwise
    that of the next group created on the channel, otherwise none.
   */
  function Home(ops: seq<TimedOp>, n: nat, i: nat, channel: u4): Option<u7>
    requires i < n <= |ops|
  {
    if n == i + 1 then
      if HasGroup(ops, i, channel, ProgramAt(ops, i, channel)) then Some(ProgramAt(ops, i, channel)) else None
    else
      match Home(ops, n - 1, i, channel)
      case Some(program) => Some(program)
      case None => if Creates(ops, n - 1, channel) then Some(ProgramAt(ops, n - 1, channel)) else None
  }

  /** The rows of the first `k` operations whose home is `home`, in arrival order. */
  function Placed(ops: seq<TimedOp>, n: nat, k: nat, channel: u4, home: Option<u7>): Rows
    requires k <= n <= |ops|
  {
    if k == 0 then NO_ROWS
    else
      Plus(Placed(ops, n, k - 1, channel, home),
           if Home(ops, n, k - 1, channel) == home then RowsBy(ops, k - 1, channel) else NO_ROWS)
  }

  /** A row has a home if its program had a group, or a group was created on the channel afterwards. */
  lemma {:induction false} HomeIs(ops: seq<TimedOp>, n: nat, i: nat, channel: u4)
    requires i < n <= |ops|
    ensures HasGroup(ops, i, channel, ProgramAt(ops, i, channel)) ==>
              Home(ops, n, i, channel) == Some(ProgramAt(ops, i, channel))
    ensures Home(ops, n, i, channel).None? <==>
              && !HasGroup(ops, i, channel, ProgramAt(ops, i, channel))
              && forall j :: i < j < n ==> !Creates(ops, j, channel)
  {
    hide HasGroup, Creates, ProgramAt;
    if n > i + 1 {
      HomeIs(ops, n - 1, i, channel);
    }
  }

  /** A row that had to wait goes to the first group created afterwards, and stays there. */
  lemma {:induction false} HomeNext(ops: seq<TimedOp>, n: nat, i: nat, j: nat, channel: u4)
    requires i < j < n <= |ops| && !HasGroup(ops, i, channel, ProgramAt(ops, i, channel))
    requires Creates(ops, j, channel) && forall l :: i < l < j ==> !Creates(ops, l, channel)
    ensures Home(ops, n, i, channel) == Some(ProgramAt(ops, j, channel))
  {
    hide HasGroup, Creates, ProgramAt;
    if n > j + 1 {
      HomeNext(ops, n - 1, i, j, channel);
    } else {
      HomeIs(ops, j, i, channel);
    }
  }

  /** A row's home has a group. */
  lemma {:induction false} HomeHasGroup(ops: seq<TimedOp>, n: nat, i: nat, channel: u4)
    requires i < n <= |ops|
    ensures match Home(ops, n, i, channel) case Some(program) => HasGroup(ops, n, channel, program) case None => true
  {
    hide ProgramAt;
    if n > i + 1 {
      HomeHasGroup(ops, n - 1, i, channel);
    }
  }

  lemma HasGroupStep(ops: seq<TimedOp>, n: nat, channel: u4, program: u7)
    requires 0 < n <= |ops|
    ensures HasGroup(ops, n, channel, program)
       <==> HasGroup(ops, n - 1, channel, program)
            || (NeedsGroup(ops[n - 1].op, channel) && ProgramAt(ops, n - 1, channel) == program)
  {
    hide ProgramAt, NeedsGroup;
  }

  /** A group was needed exactly when something was struck or sung. */
  lemma {:induction false} HasGroupIff(ops: seq<TimedOp>, n: nat, channel: u4, program: u7)
    requires n <= |ops|
    ensures HasGroup(ops, n, channel, program)
       <==> NotesFor(ops, n, channel, program) != [] || LyricsFor(ops, n, channel, program) != []
  {
    hide ProgramAt, HasGroup, NotesFor, LyricsFor;
    if n == 0 {
      NoGroupAtStart(ops, channel, program);
    } else {
      HasGroupIff(ops, n - 1, channel, program);
      HasGroupStep(ops, n, channel, program);
      DeliveriesStep(ops, n, channel, program);
    }
  }

  lemma DeliveriesStep(ops: seq<TimedOp>, n: nat, channel: u4, program: u7)
    requires 0 < n <= |ops|
    ensures NotesFor(ops, n, channel, program) != [] || LyricsFor(ops, n, channel, program) != []
       <==> NotesFor(ops, n - 1, channel, program) != [] || LyricsFor(ops, n - 1, channel, program) != []
            || (NeedsGroup(ops[n - 1].op, channel) && ProgramAt(ops, n - 1, channel) == program)
  {
    hide ProgramAt;
    var struck := StruckBy(ops[n - 1].op, ops[n - 1].time, ProgramAt(ops, n - 1, channel), channel, program);
    var sung := SungBy(ops[n - 1].op, ops[n - 1].time, ProgramAt(ops, n - 1, channel), channel, program);
    assert |NotesFor(ops, n, channel, program)| == |NotesFor(ops, n - 1, channel, program)| + |struck|;
    assert |LyricsFor(ops, n, channel, program)| == |LyricsFor(ops, n - 1, channel, program)| + |sung|;
  }

  lemma NoGroupAtStart(ops: seq<TimedOp>, channel: u4, program: u7)
    ensures !HasGroup(ops, 0, channel, program)
    ensures NotesFor(ops, 0, channel, program) == [] && LyricsFor(ops, 0, channel, program) == []
  {}

  // ----- Where a state keeps a channel's rows

  function RowsAt(m: Model, channel: u4, home: Option<u7>): Rows
    requires Valid(m)
  {
    match home
    case None => RowsOf(m.stragglers[channel])
    case Some(program) =>
      if Key(channel, program) in m.index then RowsOf(m.groups[m.index[Key(channel, program)]]) else NO_ROWS
  }

  function HomeNow(m: Model, channel: u4): Option<u7>
    requires Valid(m)
  {
    if Key(channel, m.programs[channel]) in m.index then Some(m.programs[channel]) else None
  }

  /** Creating the current group moves the waiting rows into it. */
  function RowsMoved(m: Model, channel: u4, home: Option<u7>, creates: bool): Rows
    requires Valid(m)
  {
    if !creates then RowsAt(m, channel, home)
    else if home == None then NO_ROWS
    else if home == Some(m.programs[channel]) then RowsAt(m, channel, None)
    else RowsAt(m, channel, home)
  }

  lemma RowsEnsure(m: Model, c: u4, channel: u4, home: Option<u7>)
    requires Valid(m)
    ensures var m1 := EnsureGroup(m, c).0;
            Valid(m1) && RowsAt(m1, channel, home) == RowsMoved(m, channel, home, c == channel && HomeNow(m, c).None?)
  {
    hide Queued;
    EnsureGroupValid(m, c);
    if home.Some? && Key(channel, home.value) == Key(c, m.programs[c]) {
      KeyInjective(channel, home.value, c, m.programs[c]);
    }
  }

  lemma KeyInjective(c: u4, p: u7, channel: u4, program: u7)
    requires Key(c, p) == Key(channel, program)
    ensures c == channel && p == program
  {}

  /** A group whose rows stay keeps every place as it was. */
  lemma RowsSame(m: Model, g: nat, m': Model, channel: u4, home: Option<u7>)
    requires Valid(m) && Valid(m') && g < |m.groups| == |m'.groups| && m'.groups == m.groups[g := m'.groups[g]]
    requires RowsOf(m'.groups[g]) == RowsOf(m.groups[g]) && m'.index == m.index && m'.stragglers == m.stragglers
    ensures RowsAt(m', channel, home) == RowsAt(m, channel, home)
  {
    hide Queued;
  }

  lemma RowsAfterEnsure(m: Model, c: u4, m': Model, channel: u4, home: Option<u7>)
    requires Valid(m) && Valid(m')
    requires var (m1, g) := EnsureGroup(m, c);
             && |m'.groups| == |m1.groups| && m'.groups == m1.groups[g := m'.groups[g]] && m'.index == m1.index
             && RowsOf(m'.groups[g]) == RowsOf(m1.groups[g])
             && m'.stragglers == m1.stragglers
    ensures RowsAt(m', channel, home) == RowsMoved(m, channel, home, c == channel && HomeNow(m, c).None?)
  {
    hide Valid, RowsAt, RowsMoved;
    RowsEnsure(m, c, channel, home);
    var (m1, g) := EnsureGroup(m, c);
    RowsSame(m1, g, m', channel, home);
  }

  lemma RowsAfterOff(m: Model, c: u4, pitch: u7, time: u64, channel: u4, home: Option<u7>)
    requires Valid(m)
    ensures var m' := EndNote(m, c, pitch, time); Valid(m') && RowsAt(m', channel, home) == RowsAt(m, channel, home)
  {
    EndNoteValid(m, c, pitch, time);
    var k := Key(c, pitch);
    if m.open[k] != [] {
      assert Queued(m, k, m.open[k]) && OpenAt(m, k, m.open[k][0]);
    }
  }

  /** Rows appended for a channel go to its current home and nowhere else. */
  lemma RowsAppend(m: Model, c: u4, group: Group, more: Rows, channel: u4, home: Option<u7>)
    requires Valid(m)
    requires var now := Current(m, c);
             group == now.(controls := now.controls + more.controls, pitchBends := now.pitchBends + more.pitchBends,
                           pedals := now.pedals + more.pedals)
    ensures var m' := WithCurrent(m, c, group);
            && Valid(m') && m'.programs == m.programs && m'.pedalStarts == m.pedalStarts && m'.index == m.index
            && RowsAt(m', channel, home)
            == Plus(RowsAt(m, channel, home), if c == channel && home == HomeNow(m, c) then more else NO_ROWS)
  {
    hide Queued;
    WithCurrentValid(m, c, group);
  }

  lemma RowsAfterPedal(m: Model, c: u4, time: u64, level: u7, channel: u4, home: Option<u7>)
    requires Valid(m) && HandlePedal(m, c, time, level).Ok?
    ensures var m', op := HandlePedal(m, c, time, level).value, Control(c, 64, level);
            && Valid(m')
            && RowsAt(m', channel, home)
            == Plus(RowsAt(m, channel, home),
                    if home == HomeNow(m, channel) then
                      Rows([], [], PedalsBy(op, time, channel, m.pedalStarts[channel]))
                    else NO_ROWS)
  {
    hide Queued, Indexed, WithCurrent;
    HandlePedalValid(m, c, time, level);
    var start := m.pedalStarts[c];
    if level < 64 && start.Some? {
      var released := m.(pedalStarts := m.pedalStarts[c := None]);
      ValidWithout(m, released);
      var row, group := Timed(start.value, time - start.value), Current(m, c);
      RowsAppend(released, c, group.(pedals := group.pedals + [row]), Rows([], [], [row]), channel, home);
    }
  }

  lemma RowsAfterControl(m: Model, c: u4, number: u7, level: u7, time: u64, channel: u4, home: Option<u7>)
    requires Valid(m) && Apply(m, Control(c, number, level), time).Ok?
    ensures var m', op := Apply(m, Control(c, number, level), time).value, Control(c, number, level);
            && Valid(m')
            && RowsAt(m', channel, home)
            == Plus(RowsAt(m, channel, home),
                    if home == HomeNow(m, channel) then DeliveredBy(op, time, channel, m.pedalStarts[channel]) else NO_ROWS)
  {
    hide Queued, Indexed, RowsAt, WithCurrent, HandlePedal, Plus;
    var op, group, row := Control(c, number, level), Current(m, c), Timed(time, ControlChange(number, level));
    RowsAppend(m, c, group.(controls := group.controls + [row]), Rows([row], [], []), channel, home);
    var pedals := PedalsBy(op, time, channel, m.pedalStarts[channel]);
    PlusSplit(RowsAt(m, channel, home), ControlsBy(op, time, channel), pedals);
    PlusNothing(RowsAt(m, channel, home));
    if number == 64 {
      RowsAfterPedal(AddControl(m, c, time, number, level), c, time, level, channel, home);
    }
  }

  lemma PlusNothing(a: Rows)
    ensures Plus(a, NO_ROWS) == a && Plus(NO_ROWS, a) == a
  {}

  lemma PlusSplit(a: Rows, controls: seq<TickControlChange>, pedals: seq<TickPedal>)
    ensures Plus(Plus(a, Rows(controls, [], [])), Rows([], [], pedals)) == Plus(a, Rows(controls, [], pedals))
  {}

  lemma RowsAfterBend(m: Model, c: u4, bend: i16, time: u64, channel: u4, home: Option<u7>)
    requires Valid(m)
    ensures var m', op := AddPitchBend(m, c, time, bend), PitchBend(c, bend);
            && Valid(m')
            && RowsAt(m', channel, home)
            == Plus(RowsAt(m, channel, home),
                    if home == HomeNow(m, channel) then DeliveredBy(op, time, channel, m.pedalStarts[channel]) else NO_ROWS)
  {
    hide Queued, Indexed, RowsAt, WithCurrent, Plus;
    var group := Current(m, c);
    RowsAppend(m, c, group.(pitchBends := group.pitchBends + [Timed(time, bend)]),
               Rows([], [Timed(time, bend)], []), channel, home);
  }

  lemma RowsStep(m: Model, op: TrackOp, time: u64, channel: u4, home: Option<u7>)
    requires Valid(m) && Apply(m, op, time).Ok?
    ensures var m', creates := Apply(m, op, time).value, NeedsGroup(op, channel) && HomeNow(m, channel).None?;
            && Valid(m')
            && RowsAt(m', channel, home)
            == Plus(RowsMoved(m, channel, home, creates),
                    if home == HomeNow(m, channel) then DeliveredBy(op, time, channel, m.pedalStarts[channel]) else NO_ROWS)
  {
    hide Queued, Indexed, EndNote, AddControl, AddPitchBend, HandlePedal, WithCurrent, RowsAt, HomeNow, RowsMoved, Plus;
    ApplyValid(m, op, time);
    PlusNothing(RowsMoved(m, channel, home, NeedsGroup(op, channel) && HomeNow(m, channel).None?));
    MovedNothing(m, channel, home);
    match op {
      case NoteOn(c, pitch, velocity) =>
        EnsureGroupValid(m, c);
        RowsAfterEnsure(m, c, AddNote(m, c, pitch, velocity, time), channel, home);
      case Lyric(text) =>
        EnsureGroupValid(m, 0);
        RowsAfterEnsure(m, 0, AddLyric(m, time, text), channel, home);
      case NoteOff(c, pitch) =>
        RowsAfterOff(m, c, pitch, time, channel, home);
      case PitchBend(c, bend) =>
        RowsAfterBend(m, c, bend, time, channel, home);
      case Control(c, number, level) =>
        RowsAfterControl(m, c, number, level, time, channel, home);
      case ProgramChange(_, _) =>
        RowsRelabel(m, Apply(m, op, time).value, channel, home);
      case Ignored =>
    }
  }

  lemma MovedNothing(m: Model, channel: u4, home: Option<u7>)
    requires Valid(m)
    ensures RowsMoved(m, channel, home, false) == RowsAt(m, channel, home)
  {}

  lemma RowsRelabel(m: Model, m': Model, channel: u4, home: Option<u7>)
    requires Valid(m) && Valid(m') && m'.groups == m.groups && m'.stragglers == m.stragglers && m'.index == m.index
    ensures RowsAt(m', channel, home) == RowsAt(m, channel, home)
  {}

  // ----- Every run

  /** The groups of a state are those the operations needed. */
  lemma IndexIsHasGroup(ops: seq<TimedOp>, n: nat, channel: u4, program: u7)
    requires Monotone(ops) && n <= |ops|
    ensures Key(channel, program) in ModelAt(ops, n).index <==> HasGroup(ops, n, channel, program)
  {
    hide ModelAt, Monotone, HasGroup, Valid;
    GroupsHoldDeliveries(ops, n, channel, program);
    HasGroupIff(ops, n, channel, program);
  }

  lemma HomeNowIs(ops: seq<TimedOp>, n: nat, channel: u4)
    requires Monotone(ops) && n <= |ops|
    ensures var program := ProgramAt(ops, n, channel);
            && ModelAt(ops, n).programs[channel] == program
            && HomeNow(ModelAt(ops, n), channel) == if HasGroup(ops, n, channel, program) then Some(program) else None
  {
    hide ModelAt, Monotone, HasGroup, Valid, InOrder;
    ProgramAtCorrect(ops, n, channel);
    IndexIsHasGroup(ops, n, channel, ProgramAt(ops, n, channel));
  }

  /** An operation that creates no group moves no earlier row. */
  lemma {:induction false} PlacedStays(ops: seq<TimedOp>, n: nat, k: nat, channel: u4, home: Option<u7>)
    requires k < n <= |ops| && !Creates(ops, n - 1, channel)
    ensures Placed(ops, n, k, channel, home) == Placed(ops, n - 1, k, channel, home)
  {
    hide Creates, ProgramAt, HasGroup, RowsBy;
    if k > 0 {
      PlacedStays(ops, n, k - 1, channel, home);
    }
  }

  /** A created group takes every row still waiting. */
  lemma {:induction false} PlacedMoves(ops: seq<TimedOp>, n: nat, k: nat, channel: u4, home: Option<u7>)
    requires k < n <= |ops| && Creates(ops, n - 1, channel)
    ensures var created := Some(ProgramAt(ops, n - 1, channel));
            Placed(ops, n, k, channel, home)
            == if home == None then NO_ROWS
               else if home == created then Placed(ops, n - 1, k, channel, None)
               else Placed(ops, n - 1, k, channel, home)
  {
    hide ProgramAt, HasGroup, RowsBy;
    if k > 0 {
      PlacedMoves(ops, n, k - 1, channel, home);
      HomeHasGroup(ops, n - 1, k - 1, channel);
    }
  }

  /**
    For every run, channel and place, the rows kept there are exactly the rows
    whose home it is, in arrival order: a group keeps the rows placed while its
    program was current and those that waited for it, and the stragglers keep the
    rows no group was created for.
   */
  lemma {:induction false} RowsPlaced(ops: seq<TimedOp>, n: nat, channel: u4, home: Option<u7>)
    requires Monotone(ops) && n <= |ops|
    ensures RowsAt(ModelAt(ops, n), channel, home) == Placed(ops, n, n, channel, home)
  {
    hide Valid, InOrder, Apply, ModelAt, Monotone, RowsAt, HomeNow, HasGroup, ProgramAt, DeliveredBy, NeedsGroup;
    if n == 0 {
      ModelStart(ops);
      RowsAtStart(channel, home);
    } else {
      RowsPlaced(ops, n - 1, channel, home);
      RowsPlaced(ops, n - 1, channel, None);
      ModelStep(ops, n);
      HomeNowIs(ops, n - 1, channel);
      HeldSinceCorrect(ops, n - 1, channel);
      RowsStep(ModelAt(ops, n - 1), ops[n - 1].op, ops[n - 1].time, channel, home);
      if Creates(ops, n - 1, channel) {
        PlacedMoves(ops, n, n - 1, channel, home);
      } else {
        PlacedStays(ops, n, n - 1, channel, home);
      }
    }
  }

  lemma RowsAtStart(channel: u4, home: Option<u7>)
    ensures Valid(EmptyModel()) && RowsAt(EmptyModel(), channel, home) == NO_ROWS
  {}

  lemma HeldSinceCorrect(ops: seq<TimedOp>, n: nat, channel: u4)
    requires Monotone(ops) && n <= |ops|
    ensures ModelAt(ops, n).pedalStarts[channel] == HeldSince(ops, n, channel)
  {
    hide ModelAt, Monotone, Kept, HeldSince;
    RowsConserved(ops, n, channel);
  }

  // ----- Rows that reach no group

  /** Every row of a channel meets its program's group, or is followed by the creation of one. */
  ghost predicate EveryRowSettles(ops: seq<TimedOp>, n: nat, channel: u4)
    requires n <= |ops|
  {
    forall i :: 0 <= i < n && RowsBy(ops, i, channel) != NO_ROWS ==>
      HasGroup(ops, i, channel, ProgramAt(ops, i, channel)) || exists j :: i < j < n && Creates(ops, j, channel)
  }

  lemma {:induction false} PlacedNowhereIff(ops: seq<TimedOp>, n: nat, k: nat, channel: u4)
    requires k <= n <= |ops|
    ensures Placed(ops, n, k, channel, None) == NO_ROWS
       <==> forall i :: 0 <= i < k && RowsBy(ops, i, channel) != NO_ROWS ==> Home(ops, n, i, channel).Some?
  {
    hide Home, RowsBy;
    if k > 0 {
      PlacedNowhereIff(ops, n, k - 1, channel);
    }
  }

  lemma SettlesIff(ops: seq<TimedOp>, n: nat, channel: u4)
    requires n <= |ops|
    ensures Placed(ops, n, n, channel, None) == NO_ROWS <==> EveryRowSettles(ops, n, channel)
  {
    hide Home, RowsBy, Placed, HasGroup, Creates, ProgramAt;
    PlacedNowhereIff(ops, n, n, channel);
    forall i | 0 <= i < n
      ensures Home(ops, n, i, channel).None? <==>
                && !HasGroup(ops, i, channel, ProgramAt(ops, i, channel))
                && forall j :: i < j < n ==> !Creates(ops, j, channel)
    {
      HomeIs(ops, n, i, channel);
    }
  }

  datatype RowBag = RowBag(controls: multiset<TickControlChange>, pitchBends: multiset<TickPitchBend>,
                           pedals: multiset<TickPedal>)

  function Union(a: RowBag, b: RowBag): RowBag {
    RowBag(a.controls + b.controls, a.pitchBends + b.pitchBends, a.pedals + b.pedals)
  }

  function Bag(r: Rows): RowBag {
    RowBag(multiset(r.controls), multiset(r.pitchBends), multiset(r.pedals))
  }

  /** The rows in the groups of one channel. */
  ghost function GroupBag(groups: seq<Group>, n: nat, channel: u4): RowBag
    requires n <= |groups|
  {
    RowBag(Gathered(groups, n, channel, CONTROLS), Gathered(groups, n, channel, PITCH_BENDS),
           Gathered(groups, n, channel, PEDALS))
  }

  lemma KeptBag(m: Model, channel: u4, controls: multiset<TickControlChange>, bends: multiset<TickPitchBend>,
                pedals: multiset<TickPedal>, held: Option<u64>)
    requires Valid(m) && Conserved(m, channel, controls, bends, pedals, held)
    ensures Union(GroupBag(m.groups, |m.groups|, channel), Bag(RowsAt(m, channel, None))) == RowBag(controls, bends, pedals)
  {
    hide Gathered;
  }

  lemma BagCancel(a: RowBag, r: Rows)
    ensures Union(a, Bag(r)) == a <==> r == NO_ROWS
  {
    if Union(a, Bag(r)) == a {
      MultisetCancel(a.controls, r.controls);
      MultisetCancel(a.pitchBends, r.pitchBends);
      MultisetCancel(a.pedals, r.pedals);
    }
  }

  lemma MultisetCancel<T>(a: multiset<T>, s: seq<T>)
    requires a + multiset(s) == a
    ensures s == []
  {
    assert |a + multiset(s)| == |a| + |s|;
  }

  /**
    The groups of a channel and the rows without a home make up what was
    delivered, each row once; the groups hold all of it exactly if every row
    settles.
   */
  lemma GroupsKeepIff(ops: seq<TimedOp>, n: nat, channel: u4)
    requires Monotone(ops) && n <= |ops|
    ensures var groups := ModelAt(ops, n).groups;
            && Union(GroupBag(groups, |groups|, channel), Bag(Placed(ops, n, n, channel, None))) == Bag(RowsFor(ops, n, channel))
            && (GroupBag(groups, |groups|, channel) == Bag(RowsFor(ops, n, channel)) <==> EveryRowSettles(ops, n, channel))
  {
    hide Valid, InOrder, ModelAt, Monotone, RowsAt, Placed, GroupBag, EveryRowSettles, Conserved, Union, Bag;
    var m := ModelAt(ops, n);
    RowsConserved(ops, n, channel);
    KeptBag(m, channel, multiset(ControlsFor(ops, n, channel)), multiset(BendsFor(ops, n, channel)),
            multiset(PedalsFor(ops, n, channel)), HeldSince(ops, n, channel));
    RowsPlaced(ops, n, channel, None);
    BagOfRowsFor(ops, n, channel);
    BagCancel(GroupBag(m.groups, |m.groups|, channel), Placed(ops, n, n, channel, None));
    SettlesIff(ops, n, channel);
  }

  lemma BagOfRowsFor(ops: seq<TimedOp>, n: nat, channel: u4)
    requires n <= |ops|
    ensures Bag(RowsFor(ops, n, channel))
         == RowBag(multiset(ControlsFor(ops, n, channel)), multiset(BendsFor(ops, n, channel)), multiset(PedalsFor(ops, n, channel)))
  {}

  /** A channel on which nothing is struck or sung keeps every row waiting. */
  lemma {:induction false} SilentChannelWaits(ops: seq<TimedOp>, n: nat, k: nat, channel: u4)
    requires k <= n <= |ops| && forall j :: 0 <= j < n ==> !NeedsGroup(ops[j].op, channel)
    ensures Placed(ops, n, k, channel, None) == RowsFor(ops, k, channel)
  {
    hide ProgramAt, ControlsBy, BendsBy, PedalsBy, NeedsGroup, HeldSince;
    if k > 0 {
      SilentChannelWaits(ops, n, k - 1, channel);
      HomeIs(ops, n, k - 1, channel);
    }
  }

  lemma PlacedStep(ops: seq<TimedOp>, n: nat, k: nat, channel: u4, home: Option<u7>)
    requires k < n <= |ops|
    ensures Placed(ops, n, k + 1, channel, home)
         == Plus(Placed(ops, n, k, channel, home), if Home(ops, n, k, channel) == home then RowsBy(ops, k, channel) else NO_ROWS)
  {
    hide Home, RowsBy;
  }

  lemma RowsForStep(ops: seq<TimedOp>, k: nat, channel: u4)
    requires k < |ops|
    ensures RowsFor(ops, k + 1, channel) == Plus(RowsFor(ops, k, channel), RowsBy(ops, k, channel))
  {}

  /** Operations other than controls and bends deliver nothing. */
  lemma StrayStep(ops: seq<TimedOp>, n: nat, k: nat)
    requires k < n <= |ops| && !ops[k].op.Control? && !ops[k].op.PitchBend?
    ensures Placed(ops, n, k + 1, 0, None) == Placed(ops, n, k, 0, None) && RowsFor(ops, k + 1, 0) == RowsFor(ops, k, 0)
  {
    hide Home, Placed, RowsFor;
    PlacedStep(ops, n, k, 0, None);
    RowsForStep(ops, k, 0);
    PlusNothing(Placed(ops, n, k, 0, None));
    PlusNothing(RowsFor(ops, k, 0));
  }

  lemma NothingYet(ops: seq<TimedOp>, n: nat)
    requires n <= |ops|
    ensures Placed(ops, n, 0, 0, None) == NO_ROWS && RowsFor(ops, 0, 0) == NO_ROWS
  {}

  lemma StrayRows(ops: seq<TimedOp>, time: u64)
    requires |ops| == 5 && ops[0].op.NoteOn? && ops[1].op.ProgramChange? && ops[3].op.ProgramChange? && ops[4].op.NoteOn?
    requires ops[2] == TimedOp(Control(0, 7, 100), time) && Home(ops, 5, 2, 0) == None
    ensures Placed(ops, 5, 5, 0, None) == RowsFor(ops, 5, 0) == Rows([Timed(time, ControlChange(7, 100))], [], [])
  {
    hide Home, Placed, RowsFor;
    NothingYet(ops, 5);
    StrayStep(ops, 5, 0);
    StrayStep(ops, 5, 1);
    PlacedStep(ops, 5, 2, 0, None);
    RowsForStep(ops, 2, 0);
    StrayStep(ops, 5, 3);
    StrayStep(ops, 5, 4);
  }

  /**
    Rows are also lost between notes: a control that arrives under a program
    without a group, before the channel returns to a program that has one.
   */
  lemma StraySwitch(time: u64)
    ensures var ops := [TimedOp(NoteOn(0, 60, 100), time), TimedOp(ProgramChange(0, 1), time),
                        TimedOp(Control(0, 7, 100), time), TimedOp(ProgramChange(0, 0), time),
                        TimedOp(NoteOn(0, 62, 100), time)];
            && !EveryRowSettles(ops, 5, 0)
            && Placed(ops, 5, 5, 0, None) == RowsFor(ops, 5, 0) == Rows([Timed(time, ControlChange(7, 100))], [], [])
  {
    var ops := [TimedOp(NoteOn(0, 60, 100), time), TimedOp(ProgramChange(0, 1), time),
                TimedOp(Control(0, 7, 100), time), TimedOp(ProgramChange(0, 0), time),
                TimedOp(NoteOn(0, 62, 100), time)];
    assert ProgramAt(ops, 0, 0) == 0 && ProgramAt(ops, 2, 0) == 1 && ProgramAt(ops, 4, 0) == 0;
    assert NeedsGroup(ops[0].op, 0) && HasGroup(ops, 4, 0, 0);
    assert !HasGroup(ops, 2, 0, 1);
    assert !Creates(ops, 3, 0) && !Creates(ops, 4, 0);
    HomeIs(ops, 5, 2, 0);
    hide Home, HasGroup, Creates, ProgramAt;
    StrayRows(ops, time);
    SettlesIff(ops, 5, 0);
  }

  // ----- Pedal intervals where they are kept

  lemma {:induction false} HeldSinceLater(ops: seq<TimedOp>, i: nat, n: nat, channel: u4)
    requires Monotone(ops) && i < n <= |ops| && HeldAfter(ops[i].op, ops[i].time, channel, HeldSince(ops, i, channel)).None?
    ensures match HeldSince(ops, n, channel) case Some(start) => ops[i].time <= start case None => true
  {
    if n > i + 1 {
      HeldSinceLater(ops, i, n - 1, channel);
    }
  }

  /** An interval recorded earlier ends before a later one begins. */
  lemma PedalBefore(ops: seq<TimedOp>, i: nat, j: nat, channel: u4, a: TickPedal, b: TickPedal)
    requires Monotone(ops) && i < j < |ops|
    requires a in RowsBy(ops, i, channel).pedals && b in RowsBy(ops, j, channel).pedals
    ensures a.time + a.value <= b.time
  {
    HeldSinceLater(ops, i, j, channel);
  }

  lemma {:induction false} PlacedPedal(ops: seq<TimedOp>, n: nat, k: nat, channel: u4, home: Option<u7>, a: TickPedal)
      returns (i: nat)
    requires k <= n <= |ops| && a in Placed(ops, n, k, channel, home).pedals
    ensures i < k && Home(ops, n, i, channel) == home && a in RowsBy(ops, i, channel).pedals
  {
    hide Home, RowsBy;
    if a in Placed(ops, n, k - 1, channel, home).pedals {
      i := PlacedPedal(ops, n, k - 1, channel, home, a);
    } else {
      i := k - 1;
    }
  }

  lemma {:induction false} PlacedPedalsDisjoint(ops: seq<TimedOp>, n: nat, k: nat, channel: u4, home: Option<u7>)
    requires Monotone(ops) && k <= n <= |ops|
    ensures var held := HeldSince(ops, k, channel);
            Disjoint(Placed(ops, n, k, channel, home).pedals, if held.Some? then held.value else TimeAt(ops, k))
  {
    hide Home;
    if k > 0 {
      PlacedPedalsDisjoint(ops, n, k - 1, channel, home);
      PedalsNeverOverlap(ops, k - 1, channel);
    }
  }

  /** In every group and in the stragglers, pedal intervals ascend without overlap; across places none overlaps another. */
  lemma KeptPedalsDisjoint(ops: seq<TimedOp>, n: nat, channel: u4, home: Option<u7>, other: Option<u7>)
    requires Monotone(ops) && n <= |ops|
    ensures Disjoint(RowsAt(ModelAt(ops, n), channel, home).pedals, TimeAt(ops, n))
    ensures home != other ==>
              forall a, b :: a in RowsAt(ModelAt(ops, n), channel, home).pedals && b in RowsAt(ModelAt(ops, n), channel, other).pedals ==>
                a.time + a.value <= b.time || b.time + b.value <= a.time
  {
    hide ModelAt, Monotone, Placed, RowsAt, Valid, InOrder, HeldSince, Home, RowsBy;
    RowsPlaced(ops, n, channel, home);
    RowsPlaced(ops, n, channel, other);
    PlacedPedalsDisjoint(ops, n, n, channel, home);
    PedalsNeverOverlap(ops, n, channel);
    if home != other {
      forall a, b | a in Placed(ops, n, n, channel, home).pedals && b in Placed(ops, n, n, channel, other).pedals
        ensures a.time + a.value <= b.time || b.time + b.value <= a.time
      {
        var i := PlacedPedal(ops, n, n, channel, home, a);
        var j := PlacedPedal(ops, n, n, channel, other, b);
        if i < j {
          PedalBefore(ops, i, j, channel, a, b);
        } else {
          PedalBefore(ops, j, i, channel, b, a);
        }
      }
    }
  }
}
