/**
  Which control changes, pitch bends and pedal intervals of a track reach the
  score: each output track shows the rows placed in its group, and the rows that
  never found a group are dropped.
 */
module ScorePlacement {
  import opened Base
  import opened Smf
  import opened Wire
  import opened NoteColumns
  import opened ScoreTypes
  import opened TrackModel
  import opened TrackInvariants
  import opened TrackRuns
  import opened TrackGroups
  import opened TrackRows
  import opened TrackPlacement
  import opened Scores
  import opened ScoreEmission
  import opened ScoreGrammar
  import opened ScoreTheorems

  // ----- The rows an output track shows

  function Slice<T>(column: seq<T>, r: ScoreRange): seq<T> {
    if r.start + r.len <= |column| then column[r.start..r.start + r.len] else []
  }

  function RowsOfTrack(s: Score, i: nat): Rows
    requires i < |s.tracks|
  {
    Rows(Slice(s.controls, s.tracks[i].controls), Slice(s.pitchBends, s.tracks[i].pitchBends),
         Slice(s.pedals, s.tracks[i].pedals))
  }

  const NO_BAG := RowBag(multiset{}, multiset{}, multiset{})

  /** The rows that the output tracks from `from` up to `n` show for a channel. */
  function OutputRows(s: Score, from: nat, n: nat, channel: u4): RowBag
    requires from <= n <= |s.tracks|
  {
    if n == from then NO_BAG
    else
      Union(OutputRows(s, from, n - 1, channel),
            if s.tracks[n - 1].channel == channel then Bag(RowsOfTrack(s, n - 1)) else NO_BAG)
  }

  lemma EmittedShows(s: Score, i: nat, g: Group, sourceTrack: nat, name: TextRange)
    requires Emitted(s, i, g, sourceTrack, name)
    ensures s.tracks[i].channel == g.channel && s.tracks[i].program == g.program && RowsOfTrack(s, i) == RowsOf(g)
  {}

  lemma {:induction false} OutputIsGroups(s: Score, from: nat, groups: seq<Group>, n: nat, sourceTrack: nat,
                                          name: TextRange, channel: u4)
    requires n <= |groups| && from + n <= |s.tracks|
    requires forall j :: 0 <= j < n ==> Emitted(s, from + j, groups[j], sourceTrack, name)
    ensures OutputRows(s, from, from + n, channel) == GroupBag(groups, n, channel)
  {
    hide Emitted, RowsOfTrack;
    if n > 0 {
      OutputIsGroups(s, from, groups, n - 1, sourceTrack, name, channel);
      assert Emitted(s, from + (n - 1), groups[n - 1], sourceTrack, name);
      EmittedShows(s, from + n - 1, groups[n - 1], sourceTrack, name);
    }
  }

  // ----- Emission keeps the groups' rows

  /** The rows of a channel in the groups whose key is at least `key`. */
  ghost function GatheredFrom<T>(groups: seq<Group>, n: nat, key: nat, channel: u4, column: Column<T>): multiset<Timed<T>>
    requires n <= |groups|
  {
    if n == 0 then multiset{}
    else
      GatheredFrom(groups, n - 1, key, channel, column)
        + if groups[n - 1].GroupKey() >= key then OneGathered(groups[n - 1], channel, column) else multiset{}
  }

  ghost function OneGathered<T>(g: Group, channel: u4, column: Column<T>): multiset<Timed<T>> {
    if g.channel == channel then multiset(column(g)) else multiset{}
  }

  lemma {:induction false} GatheredFromAll<T>(groups: seq<Group>, n: nat, channel: u4, column: Column<T>)
    requires n <= |groups|
    ensures GatheredFrom(groups, n, 0, channel, column) == Gathered(groups, n, channel, column)
  {
    if n > 0 {
      GatheredFromAll(groups, n - 1, channel, column);
    }
  }

  lemma {:induction false} GatheredFromSkip<T>(groups: seq<Group>, n: nat, key: nat, channel: u4, column: Column<T>)
    requires n <= |groups| && forall g :: 0 <= g < n ==> groups[g].GroupKey() != key
    ensures GatheredFrom(groups, n, key, channel, column) == GatheredFrom(groups, n, key + 1, channel, column)
  {
    if n > 0 {
      GatheredFromSkip(groups, n - 1, key, channel, column);
    }
  }

  lemma {:induction false} GatheredFromTake<T>(m: Model, n: nat, key: nat, channel: u4, column: Column<T>)
    requires Valid(m) && n <= |m.groups| && key in m.index && m.index[key] < n
    ensures GatheredFrom(m.groups, n, key, channel, column)
         == GatheredFrom(m.groups, n, key + 1, channel, column) + OneGathered(m.groups[m.index[key]], channel, column)
  {
    hide Queued, Shaped, OneGathered;
    if m.index[key] == n - 1 {
      GatheredFromSkip(m.groups, n - 1, key, channel, column);
    } else {
      GatheredFromTake(m, n - 1, key, channel, column);
    }
  }

  lemma {:induction false} GatheredFromEnd<T>(groups: seq<Group>, n: nat, channel: u4, column: Column<T>)
    requires n <= |groups|
    ensures GatheredFrom(groups, n, KEYS, channel, column) == multiset{}
  {
    if n > 0 {
      GatheredFromEnd(groups, n - 1, channel, column);
    }
  }

  lemma {:induction false} GatheredPrepend<T>(g: Group, groups: seq<Group>, n: nat, channel: u4, column: Column<T>)
    requires n <= |groups|
    ensures Gathered([g] + groups, n + 1, channel, column)
         == OneGathered(g, channel, column) + Gathered(groups, n, channel, column)
  {
    if n > 0 {
      GatheredPrepend(g, groups, n - 1, channel, column);
    }
  }

  ghost predicate EmptyInEmpty<T>(column: Column<T>) {
    forall g: Group :: g.IsEmpty() ==> column(g) == []
  }

  /** The emitted groups hold all rows of the groups from their key on. */
  lemma {:induction false} EmittedGathered<T>(m: Model, key: nat, channel: u4, column: Column<T>)
    requires Valid(m) && key <= KEYS && EmptyInEmpty(column)
    ensures Gathered(GroupsFrom(m, key), |GroupsFrom(m, key)|, channel, column)
         == GatheredFrom(m.groups, |m.groups|, key, channel, column)
    decreases KEYS - key
  {
    hide Queued, Shaped, GroupsFrom, GatheredFrom, Group.IsEmpty;
    if key == KEYS {
      GroupsFromEnd(m);
      GatheredFromEnd(m.groups, |m.groups|, channel, column);
    } else {
      EmittedGathered(m, key + 1, channel, column);
      GroupsFromNext(m, key);
      var rest := GroupsFrom(m, key + 1);
      if key !in m.index {
        assert GroupsFrom(m, key) == rest;
        GatheredFromSkip(m.groups, |m.groups|, key, channel, column);
      } else {
        var g := m.groups[m.index[key]];
        GatheredFromTake(m, |m.groups|, key, channel, column);
        if g.IsEmpty() {
          assert GroupsFrom(m, key) == rest;
          assert OneGathered(g, channel, column) == multiset{};
        } else {
          assert GroupsFrom(m, key) == [g] + rest;
          GatheredPrepend(g, rest, |rest|, channel, column);
        }
      }
    }
  }

  lemma EmittedBag(m: Model, channel: u4)
    requires Valid(m)
    ensures GroupBag(GroupsFrom(m, 0), |GroupsFrom(m, 0)|, channel) == GroupBag(m.groups, |m.groups|, channel)
  {
    hide Valid, GroupsFrom, Gathered;
    EmittedGathered(m, 0, channel, CONTROLS);
    EmittedGathered(m, 0, channel, PITCH_BENDS);
    EmittedGathered(m, 0, channel, PEDALS);
    GatheredFromAll(m.groups, |m.groups|, channel, CONTROLS);
    GatheredFromAll(m.groups, |m.groups|, channel, PITCH_BENDS);
    GatheredFromAll(m.groups, |m.groups|, channel, PEDALS);
  }

  // ----- From bytes to rows

  /** Every output track from `from` on shows the rows placed in its group. */
  ghost predicate ShowsPlaced(s: Score, from: nat, ops: seq<TimedOp>) {
    forall i :: from <= i < |s.tracks| ==>
      RowsOfTrack(s, i) == Placed(ops, |ops|, |ops|, s.tracks[i].channel, Some(s.tracks[i].program))
  }

  lemma TracksShowPlaced(m: Model, s: Score, from: nat, sourceTrack: nat, name: TextRange, ops: seq<TimedOp>)
    requires Valid(m) && |s.tracks| == from + |GroupsFrom(m, 0)| && Monotone(ops) && m == ModelAt(ops, |ops|)
    requires forall j :: 0 <= j < |GroupsFrom(m, 0)| ==> Emitted(s, from + j, GroupsFrom(m, 0)[j], sourceTrack, name)
    ensures ShowsPlaced(s, from, ops)
  {
    hide Queued, Shaped, GroupsFrom, Group.IsEmpty, Emitted, RowsOfTrack, Placed, ModelAt, Monotone, InOrder;
    GroupsFromAscend(m, 0);
    forall i | from <= i < |s.tracks|
      ensures RowsOfTrack(s, i) == Placed(ops, |ops|, |ops|, s.tracks[i].channel, Some(s.tracks[i].program))
    {
      var g := GroupsFrom(m, 0)[i - from];
      assert Emitted(s, from + (i - from), g, sourceTrack, name);
      EmittedShows(s, i, g, sourceTrack, name);
      RowsPlaced(ops, |ops|, g.channel, Some(g.program));
    }
  }

  /**
    From bytes to rows: each output track shows the rows whose home is its group,
    in arrival order; the rows of a channel that reach the score and those without
    a home make up what was delivered; and nothing is dropped exactly if every row
    settles, that is, meets its program's group or is followed by the creation of
    a group on its channel.
   */
  lemma RowsReachScore(policy: Policy, grammar: Grammar, body: Bytes, base: nat, sourceTrack: nat, f: FileRun)
    returns (ops: seq<TimedOp>)
    requires ScoreTrack(policy, grammar, body, base, sourceTrack, f).Ok? && |f.score.segments| == |f.score.tracks|
    ensures Valid(TrackStart(f).model) && ops == TrackOps(policy, grammar, TraceOf(body, base), TrackStart(f))
    ensures var s, from, n := ScoreTrack(policy, grammar, body, base, sourceTrack, f).value.score, |f.score.tracks|, |ops|;
            && from <= |s.tracks| && ShowsPlaced(s, from, ops)
            && forall channel: u4 ::
                 && Union(OutputRows(s, from, |s.tracks|, channel), Bag(Placed(ops, n, n, channel, None)))
                    == Bag(RowsFor(ops, n, channel))
                 && (OutputRows(s, from, |s.tracks|, channel) == Bag(RowsFor(ops, n, channel))
                     <==> EveryRowSettles(ops, n, channel))
  {
    hide Valid, ScoreTrack, TrackOps, TraceOf, Emitted, Paired, Holds, Conserved, ModelAt, Monotone, HasTrack, GroupsFrom,
      OutputRows, GroupBag, Placed, EveryRowSettles, RowsOfTrack, RowsFor, Union, Bag, InOrder, ShowsPlaced, TrackStart;
    var run: Run;
    run, ops := DecodedTrack(policy, grammar, body, base, sourceTrack, f);
    var s, from := ScoreTrack(policy, grammar, body, base, sourceTrack, f).value.score, |f.score.tracks|;
    TracksShowPlaced(run.model, s, from, sourceTrack, run.name, ops);
    forall channel: u4
      ensures Union(OutputRows(s, from, |s.tracks|, channel), Bag(Placed(ops, |ops|, |ops|, channel, None)))
              == Bag(RowsFor(ops, |ops|, channel))
      ensures OutputRows(s, from, |s.tracks|, channel) == Bag(RowsFor(ops, |ops|, channel))
              <==> EveryRowSettles(ops, |ops|, channel)
    {
      var groups := GroupsFrom(run.model, 0);
      OutputIsGroups(s, from, groups, |groups|, sourceTrack, run.name, channel);
      EmittedBag(run.model, channel);
      GroupsKeepIff(ops, |ops|, channel);
    }
  }
}
