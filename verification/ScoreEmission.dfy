/** Emission: every group of a track, once, in key order, into columns whose ranges tile. */
module ScoreEmission {
  import opened Base
  import opened Smf
  import opened NoteColumns
  import opened ScoreTypes
  import opened TrackModel
  import opened TrackTotals
  import opened Scores

  // ----- What an emitted track shows

  /** A range selects exactly `rows` from a column. */
  predicate Selects<T(==)>(column: seq<T>, r: ScoreRange, rows: seq<T>) {
    r.start + r.len <= |column| && column[r.start..r.start + r.len] == rows
  }

  /** Output track `i` is a group's, with all its rows; its notes are the completed ones. */
  predicate Emitted(s: Score, i: nat, g: Group, sourceTrack: nat, name: TextRange) {
    && i < |s.tracks| && i < |s.segments|
    && var t := s.tracks[i];
    && t.sourceTrack == sourceTrack && t.name == name
    && t.channel == g.channel && t.program == g.program && t.isDrum == (g.channel == 9)
    && s.segments[i] == SegmentOf(g.columns)
    && Selects(s.controls, t.controls, g.controls)
    && Selects(s.pitchBends, t.pitchBends, g.pitchBends)
    && Selects(s.pedals, t.pedals, g.pedals)
    && Selects(s.lyrics, t.lyrics, g.lyrics)
  }

  /** `s'` is `s` with more emitted tracks. */
  ghost predicate MoreTracks(s: Score, s': Score) {
    && s.tracks <= s'.tracks && s.segments <= s'.segments
    && s.controls <= s'.controls && s.pitchBends <= s'.pitchBends && s.pedals <= s'.pedals && s.lyrics <= s'.lyrics
    && s == s'.(tracks := s.tracks, segments := s.segments, noteCount := s.noteCount, controls := s.controls,
                pitchBends := s.pitchBends, pedals := s.pedals, lyrics := s.lyrics)
  }

  lemma SelectsExtends<T>(column: seq<T>, column': seq<T>, r: ScoreRange, rows: seq<T>)
    requires column <= column' && Selects(column, r, rows)
    ensures Selects(column', r, rows)
  {
    assert column'[r.start..r.start + r.len] == column[r.start..r.start + r.len];
  }

  lemma EmittedExtends(s: Score, s': Score, i: nat, g: Group, sourceTrack: nat, name: TextRange)
    requires MoreTracks(s, s') && Emitted(s, i, g, sourceTrack, name)
    ensures Emitted(s', i, g, sourceTrack, name)
  {
    hide Selects;
    var t := s.tracks[i];
    SelectsExtends(s.controls, s'.controls, t.controls, g.controls);
    SelectsExtends(s.pitchBends, s'.pitchBends, t.pitchBends, g.pitchBends);
    SelectsExtends(s.pedals, s'.pedals, t.pedals, g.pedals);
    SelectsExtends(s.lyrics, s'.lyrics, t.lyrics, g.lyrics);
  }

  /** Ranges lie end to end and fill `total` rows. */
  ghost predicate Tile(ranges: seq<ScoreRange>, total: nat) {
    && (forall i :: 0 <= i < |ranges| ==>
         ranges[i].start == if i == 0 then 0 else ranges[i - 1].start + ranges[i - 1].len)
    && total == if ranges == [] then 0 else ranges[|ranges| - 1].start + ranges[|ranges| - 1].len
  }

  function NoteRanges(s: Score): seq<ScoreRange> { seq(|s.tracks|, i requires 0 <= i < |s.tracks| => s.tracks[i].notes) }
  function ControlRanges(s: Score): seq<ScoreRange> { seq(|s.tracks|, i requires 0 <= i < |s.tracks| => s.tracks[i].controls) }
  function BendRanges(s: Score): seq<ScoreRange> { seq(|s.tracks|, i requires 0 <= i < |s.tracks| => s.tracks[i].pitchBends) }
  function PedalRanges(s: Score): seq<ScoreRange> { seq(|s.tracks|, i requires 0 <= i < |s.tracks| => s.tracks[i].pedals) }
  function LyricRanges(s: Score): seq<ScoreRange> { seq(|s.tracks|, i requires 0 <= i < |s.tracks| => s.tracks[i].lyrics) }

  /** Every column is tiled by the tracks' ranges, and each note range is as long as its segment. */
  ghost predicate Tiled(s: Score) {
    && |s.segments| == |s.tracks|
    && Tile(NoteRanges(s), s.noteCount)
    && Tile(ControlRanges(s), |s.controls|)
    && Tile(BendRanges(s), |s.pitchBends|)
    && Tile(PedalRanges(s), |s.pedals|)
    && Tile(LyricRanges(s), |s.lyrics|)
    && forall i :: 0 <= i < |s.tracks| ==> s.tracks[i].notes.len == |s.segments[i].notes|
  }

  lemma TileAppend(ranges: seq<ScoreRange>, total: nat, r: ScoreRange)
    requires Tile(ranges, total) && r.start == total
    ensures Tile(ranges + [r], total + r.len)
  {}

  /** Where a track sorts: source track, then channel, then program. */
  function SortKey(t: TickTrack): nat {
    t.sourceTrack * KEYS + Key(t.channel, t.program)
  }

  /** Tracks strictly ascend by source track, channel and program, and stay below `bound`. */
  ghost predicate Ascending(tracks: seq<TickTrack>, bound: nat) {
    && (forall i, j :: 0 <= i < j < |tracks| ==> SortKey(tracks[i]) < SortKey(tracks[j]))
    && (forall i :: 0 <= i < |tracks| ==> SortKey(tracks[i]) < bound)
  }

  // ----- One group

  lemma EmitGroupEmits(s: Score, g: Group, sourceTrack: nat, name: TextRange, end: nat)
    requires EmitGroup(s, g, sourceTrack, name, end).Ok? && |s.segments| == |s.tracks|
    ensures var s' := EmitGroup(s, g, sourceTrack, name, end).value;
            && MoreTracks(s, s') && Emitted(s', |s.tracks|, g, sourceTrack, name)
            && |s'.tracks| == |s'.segments| == |s.tracks| + 1
  {
    hide SegmentOf;
  }

  lemma EmitGroupTiles(s: Score, g: Group, sourceTrack: nat, name: TextRange, end: nat)
    requires EmitGroup(s, g, sourceTrack, name, end).Ok? && Tiled(s)
    ensures Tiled(EmitGroup(s, g, sourceTrack, name, end).value)
  {
    var s' := EmitGroup(s, g, sourceTrack, name, end).value;
    var t := s'.tracks[|s.tracks|];
    TileAppend(NoteRanges(s), s.noteCount, t.notes);
    TileAppend(ControlRanges(s), |s.controls|, t.controls);
    TileAppend(BendRanges(s), |s.pitchBends|, t.pitchBends);
    TileAppend(PedalRanges(s), |s.pedals|, t.pedals);
    TileAppend(LyricRanges(s), |s.lyrics|, t.lyrics);
    hide Tile, SegmentOf;
    assert NoteRanges(s') == NoteRanges(s) + [t.notes];
    assert ControlRanges(s') == ControlRanges(s) + [t.controls];
    assert BendRanges(s') == BendRanges(s) + [t.pitchBends];
    assert PedalRanges(s') == PedalRanges(s) + [t.pedals];
    assert LyricRanges(s') == LyricRanges(s) + [t.lyrics];
  }

  // ----- All groups of a track

  /** The groups that are emitted, in key order. */
  function GroupsFrom(m: Model, key: nat): seq<Group>
    requires Valid(m) && key <= KEYS
    decreases KEYS - key
  {
    if key == KEYS then []
    else if key in m.index && !m.groups[m.index[key]].IsEmpty() then [m.groups[m.index[key]]] + GroupsFrom(m, key + 1)
    else GroupsFrom(m, key + 1)
  }

  lemma GroupsFromNext(m: Model, key: nat)
    requires Valid(m) && key < KEYS
    ensures GroupsFrom(m, key)
         == (if key in m.index && !m.groups[m.index[key]].IsEmpty() then [m.groups[m.index[key]]] else []) + GroupsFrom(m, key + 1)
  {}

  /** The emitted groups are non-empty groups of the state, each at most once, in ascending key order. */
  lemma {:induction false} GroupsFromAscend(m: Model, key: nat)
    requires Valid(m) && key <= KEYS
    ensures var groups := GroupsFrom(m, key);
            && (forall j :: 0 <= j < |groups| ==>
                 && key <= groups[j].GroupKey() < KEYS && groups[j].GroupKey() in m.index
                 && groups[j] == m.groups[m.index[groups[j].GroupKey()]] && !groups[j].IsEmpty())
            && (forall i, j :: 0 <= i < j < |groups| ==> groups[i].GroupKey() < groups[j].GroupKey())
    decreases KEYS - key
  {
    hide Queued, Shaped, Group.IsEmpty, GroupsFrom;
    if key == KEYS {
      GroupsFromEnd(m);
    } else {
      GroupsFromAscend(m, key + 1);
      GroupsFromNext(m, key);
    }
  }

  lemma GroupsFromEnd(m: Model)
    requires Valid(m)
    ensures GroupsFrom(m, KEYS) == []
  {}

  /** Every non-empty group is emitted. */
  lemma {:induction false} GroupsFromHas(m: Model, key: nat, k: nat)
    requires Valid(m) && key <= k < KEYS && k in m.index && !m.groups[m.index[k]].IsEmpty()
    ensures m.groups[m.index[k]] in GroupsFrom(m, key)
    decreases k - key
  {
    hide Queued, Shaped, Group.IsEmpty, GroupsFrom;
    GroupsFromNext(m, key);
    if key < k {
      GroupsFromHas(m, key + 1, k);
    }
  }

  /** Keys without a group emit nothing. */
  lemma {:induction false} EmitFromSkips(
      m: Model, key: nat, last: nat, sourceTrack: nat, name: TextRange, s: Score, end: nat)
    requires Valid(m) && key <= last <= KEYS && forall k :: key <= k < last ==> k !in m.index
    ensures EmitFrom(m, key, sourceTrack, name, s, end) == EmitFrom(m, last, sourceTrack, name, s, end)
    decreases KEYS - key
  {
    hide Queued, Indexed, EmitGroup;
    if key < last {
      EmitFromSkips(m, key + 1, last, sourceTrack, name, s, end);
    }
  }

  lemma EmitFromLast(m: Model, sourceTrack: nat, name: TextRange, s: Score, end: nat)
    requires Valid(m)
    ensures EmitFrom(m, KEYS, sourceTrack, name, s, end) == Ok(s)
  {}

  lemma MoreTracksTransitive(a: Score, b: Score, c: Score)
    requires MoreTracks(a, b) && MoreTracks(b, c)
    ensures MoreTracks(a, c)
  {}

  /** The emitted tracks are the groups, one each, in key order, with all their rows. */
  lemma {:induction false} EmitFromEmits(m: Model, key: nat, sourceTrack: nat, name: TextRange, s: Score, end: nat)
    requires Valid(m) && key <= KEYS && |s.segments| == |s.tracks|
    requires EmitFrom(m, key, sourceTrack, name, s, end).Ok?
    ensures var s', groups := EmitFrom(m, key, sourceTrack, name, s, end).value, GroupsFrom(m, key);
            && MoreTracks(s, s') && |s'.tracks| == |s'.segments| == |s.tracks| + |groups|
            && forall j :: 0 <= j < |groups| ==> Emitted(s', |s.tracks| + j, groups[j], sourceTrack, name)
    decreases KEYS - key
  {
    hide Queued, Shaped, EmitGroup, Emitted, MoreTracks;
    if key == KEYS {
      MoreTracksItself(s);
    } else if key in m.index && !m.groups[m.index[key]].IsEmpty() {
      var g := m.groups[m.index[key]];
      var s1 := EmitGroup(s, g, sourceTrack, name, end).value;
      EmitGroupEmits(s, g, sourceTrack, name, end);
      EmitFromEmits(m, key + 1, sourceTrack, name, s1, end);
      var s', groups := EmitFrom(m, key, sourceTrack, name, s, end).value, GroupsFrom(m, key);
      MoreTracksTransitive(s, s1, s');
      forall j | 0 <= j < |groups| ensures Emitted(s', |s.tracks| + j, groups[j], sourceTrack, name) {
        if j == 0 {
          EmittedExtends(s1, s', |s.tracks|, g, sourceTrack, name);
        } else {
          assert Emitted(s', |s1.tracks| + (j - 1), GroupsFrom(m, key + 1)[j - 1], sourceTrack, name);
        }
      }
    } else {
      EmitFromEmits(m, key + 1, sourceTrack, name, s, end);
    }
  }

  ghost predicate IsEmitted(s: Score, from: nat, g: Group, sourceTrack: nat, name: TextRange) {
    exists i :: from <= i < |s.tracks| && Emitted(s, i, g, sourceTrack, name)
  }

  ghost predicate EmitsSome(s: Score, i: nat, m: Model, sourceTrack: nat, name: TextRange) {
    exists g :: 0 <= g < |m.groups| && !m.groups[g].IsEmpty() && Emitted(s, i, m.groups[g], sourceTrack, name)
  }

  /** Every non-empty group of the track becomes an output track with all its rows, and no other track is appended. */
  lemma EmissionIsExact(m: Model, sourceTrack: nat, name: TextRange, s: Score, end: nat)
    requires Valid(m) && |s.segments| == |s.tracks| && EmitFrom(m, 0, sourceTrack, name, s, end).Ok?
    ensures var s' := EmitFrom(m, 0, sourceTrack, name, s, end).value;
            && MoreTracks(s, s')
            && (forall g :: 0 <= g < |m.groups| && !m.groups[g].IsEmpty() ==> IsEmitted(s', |s.tracks|, m.groups[g], sourceTrack, name))
            && (forall i :: |s.tracks| <= i < |s'.tracks| ==> EmitsSome(s', i, m, sourceTrack, name))
  {
    hide Queued, Shaped, EmitFrom, Emitted, MoreTracks, GroupsFrom, Group.IsEmpty;
    var s', groups := EmitFrom(m, 0, sourceTrack, name, s, end).value, GroupsFrom(m, 0);
    EmitFromEmits(m, 0, sourceTrack, name, s, end);
    GroupsFromAscend(m, 0);
    forall g | 0 <= g < |m.groups| && !m.groups[g].IsEmpty()
      ensures IsEmitted(s', |s.tracks|, m.groups[g], sourceTrack, name)
    {
      KeyBelow(m.groups[g]);
      GroupsFromHas(m, 0, m.groups[g].GroupKey());
      var j :| 0 <= j < |groups| && groups[j] == m.groups[g];
      assert Emitted(s', |s.tracks| + j, groups[j], sourceTrack, name);
    }
    forall i | |s.tracks| <= i < |s'.tracks| ensures EmitsSome(s', i, m, sourceTrack, name) {
      var j := i - |s.tracks|;
      assert Emitted(s', |s.tracks| + j, groups[j], sourceTrack, name);
      assert groups[j] == m.groups[m.index[groups[j].GroupKey()]];
    }
  }

  lemma KeyBelow(g: Group)
    ensures g.GroupKey() < KEYS
  {}

  lemma MoreTracksItself(s: Score)
    ensures MoreTracks(s, s)
  {}

  lemma {:induction false} EmitFromTiles(m: Model, key: nat, sourceTrack: nat, name: TextRange, s: Score, end: nat)
    requires Valid(m) && key <= KEYS && Tiled(s)
    requires EmitFrom(m, key, sourceTrack, name, s, end).Ok?
    ensures Tiled(EmitFrom(m, key, sourceTrack, name, s, end).value)
    decreases KEYS - key
  {
    hide Queued, Shaped, EmitGroup, Tiled;
    if key < KEYS {
      if key in m.index && !m.groups[m.index[key]].IsEmpty() {
        var g := m.groups[m.index[key]];
        EmitGroupTiles(s, g, sourceTrack, name, end);
        EmitFromTiles(m, key + 1, sourceTrack, name, EmitGroup(s, g, sourceTrack, name, end).value, end);
      } else {
        EmitFromTiles(m, key + 1, sourceTrack, name, s, end);
      }
    }
  }

  lemma {:induction false} EmitFromAscends(m: Model, key: nat, sourceTrack: nat, name: TextRange, s: Score, end: nat)
    requires Valid(m) && key <= KEYS && Ascending(s.tracks, sourceTrack * KEYS + key)
    requires EmitFrom(m, key, sourceTrack, name, s, end).Ok?
    ensures Ascending(EmitFrom(m, key, sourceTrack, name, s, end).value.tracks, (sourceTrack + 1) * KEYS)
    decreases KEYS - key
  {
    hide Queued, SegmentOf;
    if key < KEYS {
      if key in m.index && !m.groups[m.index[key]].IsEmpty() {
        var g := m.groups[m.index[key]];
        var s' := EmitGroup(s, g, sourceTrack, name, end).value;
        assert SortKey(s'.tracks[|s.tracks|]) == sourceTrack * KEYS + key;
        EmitFromAscends(m, key + 1, sourceTrack, name, s', end);
      } else {
        EmitFromAscends(m, key + 1, sourceTrack, name, s, end);
      }
    }
  }

  // ----- The flattened note column

  /** All notes, segment after segment: what `notes()` materializes. */
  function Flattened(segments: seq<Segment>, n: nat): seq<TickNote>
    requires n <= |segments|
  {
    if n == 0 then [] else Flattened(segments, n - 1) + segments[n - 1].notes
  }

  lemma AdjacentNotes(s: Score, i: nat)
    requires Tiled(s) && i < |s.tracks|
    ensures s.tracks[i].notes.start == if i == 0 then 0 else s.tracks[i - 1].notes.start + s.tracks[i - 1].notes.len
    ensures |s.segments| == |s.tracks| && s.tracks[i].notes.len == |s.segments[i].notes|
  {
    var ranges := NoteRanges(s);
    assert ranges[i] == s.tracks[i].notes;
    assert i > 0 ==> ranges[i - 1] == s.tracks[i - 1].notes;
  }

  lemma {:induction false} FlattenedLength(s: Score, n: nat)
    requires Tiled(s) && n <= |s.tracks|
    ensures |Flattened(s.segments, n)|
         == if n == 0 then 0 else s.tracks[n - 1].notes.start + s.tracks[n - 1].notes.len
  {
    if n > 0 {
      FlattenedLength(s, n - 1);
      AdjacentNotes(s, n - 1);
    }
  }

  /** The flattened column over a track's range is that track's segment; its length is the note count. */
  lemma {:induction false} NotesMatchSegments(s: Score, i: nat, n: nat)
    requires Tiled(s) && i < n <= |s.tracks|
    ensures |Flattened(s.segments, |s.segments|)| == s.noteCount
    ensures Selects(Flattened(s.segments, n), s.tracks[i].notes, s.segments[i].notes)
  {
    hide Tiled;
    AdjacentNotes(s, i);
    FlattenedTotal(s);
    FlattenedLength(s, n);
    FlattenedLength(s, n - 1);
    if i < n - 1 {
      NotesMatchSegments(s, i, n - 1);
      SelectsExtends(Flattened(s.segments, n - 1), Flattened(s.segments, n), s.tracks[i].notes, s.segments[i].notes);
    }
  }

  lemma FlattenedTotal(s: Score)
    requires Tiled(s)
    ensures |Flattened(s.segments, |s.segments|)| == s.noteCount
  {
    FlattenedLength(s, |s.tracks|);
    if |s.tracks| > 0 {
      assert NoteRanges(s)[|s.tracks| - 1] == s.tracks[|s.tracks| - 1].notes;
    }
  }

  // ----- Row totals

  /** Rows of every counted category in a score. */
  function RowCount(s: Score): nat {
    s.noteCount + |s.controls| + |s.pitchBends| + |s.lyrics|
      + |s.tempos| + |s.timeSignatures| + |s.keySignatures| + |s.markers|
  }

  /** Rows of the groups whose key is at least `key`. */
  function RowsFrom(groups: seq<Group>, n: nat, key: nat, pedals: bool): nat
    requires n <= |groups|
  {
    if n == 0 then 0
    else RowsFrom(groups, n - 1, key, pedals) + if groups[n - 1].GroupKey() >= key then GroupRows(groups[n - 1], pedals) else 0
  }

  lemma {:induction false} RowsFromSkip(groups: seq<Group>, n: nat, key: nat, pedals: bool)
    requires n <= |groups| && forall g :: 0 <= g < n ==> groups[g].GroupKey() != key
    ensures RowsFrom(groups, n, key, pedals) == RowsFrom(groups, n, key + 1, pedals)
  {
    if n > 0 {
      RowsFromSkip(groups, n - 1, key, pedals);
    }
  }

  lemma {:induction false} RowsFromTake(m: Model, n: nat, key: nat, pedals: bool)
    requires Valid(m) && n <= |m.groups| && key in m.index && m.index[key] < n
    ensures RowsFrom(m.groups, n, key, pedals)
         == RowsFrom(m.groups, n, key + 1, pedals) + GroupRows(m.groups[m.index[key]], pedals)
  {
    hide Queued, Shaped;
    if m.index[key] == n - 1 {
      RowsFromSkip(m.groups, n - 1, key, pedals);
    } else {
      RowsFromTake(m, n - 1, key, pedals);
    }
  }

  lemma {:induction false} RowsFromAll(groups: seq<Group>, n: nat, pedals: bool)
    requires n <= |groups|
    ensures RowsFrom(groups, n, 0, pedals) == SumRows(groups, n, pedals)
  {
    if n > 0 {
      RowsFromAll(groups, n - 1, pedals);
    }
  }

  /** Emission appends no more rows than the groups hold, and fails only past a `u32` of rows. */
  lemma {:induction false} EmitFromRows(m: Model, key: nat, sourceTrack: nat, name: TextRange, s: Score, end: nat)
    requires Valid(m) && key <= KEYS
    ensures var r := EmitFrom(m, key, sourceTrack, name, s, end);
            var rows, pedals := RowsFrom(m.groups, |m.groups|, key, false), RowsFrom(m.groups, |m.groups|, key, true);
            match r
            case Ok(s') => RowCount(s') <= RowCount(s) + rows && |s'.pedals| <= |s.pedals| + pedals
            case Err(e) => e == At(end, SizeOverflow) && (RowCount(s) + rows > U32_MAX || |s.pedals| + pedals > U32_MAX)
    decreases KEYS - key
  {
    hide Queued, Shaped, SegmentOf, RowsFrom;
    if key < KEYS {
      if key in m.index {
        RowsFromTake(m, |m.groups|, key, false);
        RowsFromTake(m, |m.groups|, key, true);
      } else {
        RowsFromSkip(m.groups, |m.groups|, key, false);
        RowsFromSkip(m.groups, |m.groups|, key, true);
      }
      if key in m.index && !m.groups[m.index[key]].IsEmpty() {
        var g := m.groups[m.index[key]];
        EmitGroupRows(s, g, sourceTrack, name, end);
        var s' := EmitGroup(s, g, sourceTrack, name, end);
        if s'.Ok? {
          EmitFromRows(m, key + 1, sourceTrack, name, s'.value, end);
        }
      } else {
        EmitFromRows(m, key + 1, sourceTrack, name, s, end);
      }
    }
  }

  lemma EmitGroupRows(s: Score, g: Group, sourceTrack: nat, name: TextRange, end: nat)
    ensures match EmitGroup(s, g, sourceTrack, name, end)
            case Ok(s') =>
              RowCount(s') <= RowCount(s) + GroupRows(g, false) && |s'.pedals| == |s.pedals| + GroupRows(g, true)
            case Err(e) =>
              && e == At(end, SizeOverflow)
              && (RowCount(s) + GroupRows(g, false) > U32_MAX || |s.pedals| + GroupRows(g, true) > U32_MAX)
  {}
}
