/**
  Adaptive note columns: 10-byte rows with 32-bit times that widen to 18-byte
  rows on demand, with an all-ones duration as the "still open" marker. The
  builder is proved to be a sequence of notes with optional durations.
 */
module NoteColumns {
  import opened Base
  import opened Smf

  // ----- The simple form

  /** A started note; it is open until it has a duration. */
  datatype OpenNote = OpenNote(time: u64, duration: Option<u64>, pitch: u8, velocity: u8)

  /** A completed note of a score. */
  datatype TickNote = TickNote(time: u64, duration: u64, pitch: u8, velocity: u8)

  datatype Columns = Columns(notes: seq<OpenNote>, wide: bool)

  datatype Segment = Segment(notes: seq<TickNote>, wide: bool)

  function Pushed(c: Columns, time: u64, pitch: u8, velocity: u8): Columns {
    Columns(c.notes + [OpenNote(time, None, pitch, velocity)], c.wide || time > U32_MAX)
  }

  function Completed(c: Columns, index: nat, duration: u64): Columns
    requires index < |c.notes|
  {
    Columns(c.notes[index := c.notes[index].(duration := Some(duration))], c.wide || duration > U32_MAX)
  }

  /** The completed ones of the first `n` notes, in push order. */
  function CompletedUpTo(notes: seq<OpenNote>, n: nat): (r: seq<TickNote>)
    requires n <= |notes|
    ensures |r| <= n
  {
    if n == 0 then []
    else
      var last, before := notes[n - 1], CompletedUpTo(notes, n - 1);
      if last.duration.None? then before
      else before + [TickNote(last.time, last.duration.value, last.pitch, last.velocity)]
  }

  function CompletedNotes(notes: seq<OpenNote>): seq<TickNote> {
    CompletedUpTo(notes, |notes|)
  }

  function SegmentOf(c: Columns): Segment {
    Segment(CompletedNotes(c.notes), c.wide)
  }

  // ----- Packed rows

  /** Two little-endian times of `width` bytes each, then pitch and velocity. */
  type PackedRow = Bytes

  function Pow256(n: nat): (r: nat)
    ensures r >= 1
  {
    if n == 0 then 1 else 0x100 * Pow256(n - 1)
  }

  function LittleEndian(n: nat, width: nat): (s: Bytes)
    ensures |s| == width
  {
    if width == 0 then [] else [n % 0x100] + LittleEndian(n / 0x100, width - 1)
  }

  function FromLittleEndian(s: Bytes): nat {
    if s == [] then 0 else s[0] + 0x100 * FromLittleEndian(s[1..])
  }

  lemma {:induction false} LittleEndianRoundTrip(n: nat, width: nat)
    requires n < Pow256(width)
    ensures FromLittleEndian(LittleEndian(n, width)) == n
  {
    if width > 0 {
      LittleEndianRoundTrip(n / 0x100, width - 1);
      assert LittleEndian(n, width)[1..] == LittleEndian(n / 0x100, width - 1);
    }
  }

  lemma {:induction false} FromLittleEndianBounded(s: Bytes)
    ensures FromLittleEndian(s) < Pow256(|s|)
  {
    if s != [] {
      FromLittleEndianBounded(s[1..]);
    }
  }

  predicate IsWidth(width: nat) {
    width == 4 || width == 8
  }

  lemma Widths()
    ensures Pow256(4) == 0x1_0000_0000 && Pow256(8) == 0x1_0000_0000_0000_0000
  {
    assert Pow256(2) == 0x1_0000 && Pow256(4) == 0x1_0000_0000;
    assert Pow256(6) == 0x1_0000_0000_0000 && Pow256(8) == 0x1_0000_0000_0000_0000;
  }

  /** The fields of a packed row. */
  function RowNote(width: nat, row: PackedRow): (note: TickNote)
    requires IsWidth(width) && |row| == 2 * width + 2
    ensures FitsRow(width, note)
  {
    Widths();
    FromLittleEndianBounded(row[..width]);
    FromLittleEndianBounded(row[width..2 * width]);
    TickNote(FromLittleEndian(row[..width]), FromLittleEndian(row[width..2 * width]), row[2 * width], row[2 * width + 1])
  }

  predicate FitsRow(width: nat, note: TickNote) {
    width == 8 || (note.time <= U32_MAX && note.duration <= U32_MAX)
  }

  /** Unpacking inverts packing, for both row widths. */
  function PackRow(width: nat, note: TickNote): (row: PackedRow)
    requires IsWidth(width) && FitsRow(width, note)
    ensures |row| == 2 * width + 2 && RowNote(width, row) == note
  {
    var time, duration := LittleEndian(note.time, width), LittleEndian(note.duration, width);
    var row := time + duration + [note.pitch, note.velocity];
    Widths();
    LittleEndianRoundTrip(note.time, width);
    LittleEndianRoundTrip(note.duration, width);
    assert row[..width] == time && row[width..2 * width] == duration;
    row
  }

  function WithDuration(width: nat, row: PackedRow, duration: u64): (r: PackedRow)
    requires IsWidth(width) && |row| == 2 * width + 2 && FitsRow(width, RowNote(width, row).(duration := duration))
    ensures |r| == |row| && RowNote(width, r) == RowNote(width, row).(duration := duration)
  {
    PackRow(width, RowNote(width, row).(duration := duration))
  }

  // ----- The builder

  /** A row whose duration is the mark and that has no side entry is still open. */
  predicate Dangling(timing: Timing, row: PackedRow, completedMax: seq<u32>, i: nat)
    requires |row| == 2 * timing.Width() + 2
  {
    RowNote(timing.Width(), row).duration == timing.Mark() && i !in completedMax
  }

  datatype Timing = Narrow(rows: seq<PackedRow>) | Wide(rows: seq<PackedRow>) {
    function Width(): nat {
      if Narrow? then 4 else 8
    }

    /** The duration that marks an open note. */
    function Mark(): u64 {
      if Narrow? then U32_MAX else U64_MAX
    }

    predicate Valid() {
      forall i :: 0 <= i < |rows| ==> |rows[i]| == 2 * Width() + 2
    }

    /** A row's note, open if its duration is the mark and no side entry says otherwise. */
    function NoteAt(completedMax: seq<u32>, i: nat): OpenNote
      requires Valid() && i < |rows|
    {
      var n := RowNote(Width(), rows[i]);
      OpenNote(n.time, if Dangling(this, rows[i], completedMax, i) then None else Some(n.duration), n.pitch, n.velocity)
    }

    function View(completedMax: seq<u32>): (c: Columns)
      requires Valid()
    {
      Columns(seq(|rows|, i requires 0 <= i < |rows| => NoteAt(completedMax, i)), Wide?)
    }
  }

  /** The retained rows of one emitted track. */
  datatype NoteSegment = NoteSegment(timing: Timing) {
    function View(): Segment
      requires timing.Valid()
    {
      Segment(seq(|timing.rows|, i requires 0 <= i < |timing.rows| => RowNote(timing.Width(), timing.rows[i])), timing.Wide?)
    }
  }

  predicate HasDangling(timing: Timing, completedMax: seq<u32>)
    requires timing.Valid()
  {
    exists i :: 0 <= i < |timing.rows| && Dangling(timing, timing.rows[i], completedMax, i)
  }

  lemma {:induction false} NothingDangling(timing: Timing, completedMax: seq<u32>, n: nat)
    requires timing.Valid() && n <= |timing.rows| && !HasDangling(timing, completedMax)
    ensures NoteSegment(timing).View().notes[..n] == CompletedUpTo(timing.View(completedMax).notes, n)
  {
    hide RowNote;
    var kept := NoteSegment(timing).View().notes;
    if n > 0 {
      NothingDangling(timing, completedMax, n - 1);
      assert !Dangling(timing, timing.rows[n - 1], completedMax, n - 1);
      assert kept[..n] == kept[..n - 1] + [kept[n - 1]];
    }
  }

  /** `values[write] = values[read]`, skipped when the row is already in place. */
  function MoveRow(values: seq<PackedRow>, write: nat, read: nat): (r: seq<PackedRow>)
    requires write <= read < |values|
    ensures r == values[write := values[read]]
  {
    if write != read then values[write := values[read]] else values
  }

  /** Moves the completed rows to the front, in order, and truncates. */
  method CompactNotes(timing: Timing, completedMax: seq<u32>) returns (values: seq<PackedRow>)
    requires timing.Valid()
    ensures timing.(rows := values).Valid()
    ensures NoteSegment(timing.(rows := values)).View() == SegmentOf(timing.View(completedMax))
  {
    hide RowNote;
    values := timing.rows;
    var write := 0;
    ghost var notes := timing.View(completedMax).notes;
    for read := 0 to |values|
      invariant |values| == |timing.rows| && 0 <= write <= read
      invariant forall k :: 0 <= k < |values| ==> |values[k]| == 2 * timing.Width() + 2
      invariant forall k :: read <= k < |values| ==> values[k] == timing.rows[k]
      invariant |CompletedUpTo(notes, read)| == write
      invariant forall k :: 0 <= k < write ==> RowNote(timing.Width(), values[k]) == CompletedUpTo(notes, read)[k]
    {
      if !Dangling(timing, values[read], completedMax, read) {
        values, write := MoveRow(values, write, read), write + 1;
      }
    }
    values := values[..write];
  }

  class NoteColumnsBuilder {
    var timing: Timing
    // Which completed notes have a duration equal to the mark of their width.
    var completedMaxDurationIndices: seq<u32>

    ghost predicate Valid()
      reads this
    {
      && timing.Valid()
      && forall k :: k in completedMaxDurationIndices ==> k < |timing.rows|
    }

    ghost function View(): (c: Columns)
      requires Valid()
      reads this
      ensures |c.notes| == |timing.rows|
    {
      timing.View(completedMaxDurationIndices)
    }

    constructor ()
      ensures Valid() && View() == Columns([], false)
    {
      timing, completedMaxDurationIndices := Narrow([]), [];
    }

    function Len(): nat
      reads this
    {
      |timing.rows|
    }

    /** The index of the new open note, which must fit a `u32`. */
    method Push(time: u64, pitch: u8, velocity: u8, offset: nat) returns (r: Result<u32, ParseError>)
      requires Valid()
      modifies this
      ensures Valid()
      ensures if |old(View()).notes| > U32_MAX
              then r == Err(At(offset, SizeOverflow)) && View() == old(View())
              else r == Ok(|old(View()).notes|) && View() == Pushed(old(View()), time, pitch, velocity)
    {
      hide RowNote, PackRow;
      if Len() > U32_MAX {
        return Err(At(offset, SizeOverflow));
      }
      var index: u32 := Len();
      if timing.Narrow? && time <= U32_MAX {
        timing := Narrow(timing.rows + [PackRow(4, TickNote(time, U32_MAX, pitch, velocity))]);
      } else {
        if timing.Narrow? {
          PromoteToWide();
        }
        timing := Wide(timing.rows + [PackRow(8, TickNote(time, U64_MAX, pitch, velocity))]);
      }
      assert View().notes == Pushed(old(View()), time, pitch, velocity).notes;
      r := Ok(index);
    }

    function Start(index: u32): (time: u64)
      requires Valid() && index < Len()
      reads this
      ensures time == View().notes[index].time
    {
      RowNote(timing.Width(), timing.rows[index]).time
    }

    /** Closes one open note; any `u64` duration is representable, the all-ones values included. */
    method Complete(index: u32, duration: u64)
      requires Valid() && index < Len() && View().notes[index].duration.None?
      modifies this
      ensures Valid() && View() == Completed(old(View()), index, duration)
    {
      hide RowNote, PackRow, WithDuration;
      if timing.Narrow? {
        if duration < U32_MAX {
          timing := Narrow(timing.rows[index := WithDuration(4, timing.rows[index], duration)]);
        } else {
          CompleteNarrowException(index, duration);
        }
      } else if duration == U64_MAX {
        CompleteWideMax(index);
      } else {
        timing := Wide(timing.rows[index := WithDuration(8, timing.rows[index], duration)]);
      }
      assert View().notes == Completed(old(View()), index, duration).notes;
    }

    method CompleteNarrowException(index: u32, duration: u64)
      requires Valid() && index < Len() && View().notes[index].duration.None?
      requires timing.Narrow? && duration >= U32_MAX
      modifies this
      ensures Valid() && View() == Completed(old(View()), index, duration)
    {
      hide RowNote, PackRow, WithDuration;
      if duration == U32_MAX {
        timing := Narrow(timing.rows[index := WithDuration(4, timing.rows[index], U32_MAX)]);
        completedMaxDurationIndices := completedMaxDurationIndices + [index];
      } else {
        PromoteToWide();
        timing := Wide(timing.rows[index := WithDuration(8, timing.rows[index], duration)]);
        if duration == U64_MAX {
          completedMaxDurationIndices := completedMaxDurationIndices + [index];
        }
      }
      assert View().notes == Completed(old(View()), index, duration).notes;
    }

    method CompleteWideMax(index: u32)
      requires Valid() && index < Len() && View().notes[index].duration.None?
      requires timing.Wide?
      modifies this
      ensures Valid() && View() == Completed(old(View()), index, U64_MAX)
    {
      hide RowNote, PackRow, WithDuration;
      timing := Wide(timing.rows[index := WithDuration(8, timing.rows[index], U64_MAX)]);
      completedMaxDurationIndices := completedMaxDurationIndices + [index];
      assert View().notes == Completed(old(View()), index, U64_MAX).notes;
    }

    /** Rewrites every narrow row as a wide one; open notes stay open and completed ones keep their durations. */
    method PromoteToWide()
      requires Valid() && timing.Narrow?
      modifies this`timing
      ensures Valid() && View() == Columns(old(View()).notes, true)
    {
      hide RowNote, PackRow;
      var values := timing.rows;
      var wideValues: seq<PackedRow> := [];
      for index := 0 to |values|
        invariant |wideValues| == index && Wide(wideValues).Valid()
        invariant forall k :: 0 <= k < index ==>
                    Wide(wideValues).NoteAt(completedMaxDurationIndices, k) == Narrow(values).NoteAt(completedMaxDurationIndices, k)
      {
        var row := RowNote(4, values[index]);
        var duration := if row.duration == U32_MAX && index !in completedMaxDurationIndices then U64_MAX else row.duration;
        wideValues := wideValues + [PackRow(8, row.(duration := duration))];
      }
      timing := Wide(wideValues);
      assert View().notes == old(View()).notes;
    }

    /** The completed notes only, in push order, at the width reached. */
    method IntoSegment() returns (segment: NoteSegment)
      requires Valid()
      ensures segment.timing.Valid() && segment.View() == SegmentOf(View())
    {
      hide RowNote, CompletedUpTo;
      var rows := timing.rows;
      if HasDangling(timing, completedMaxDurationIndices) {
        rows := CompactNotes(timing, completedMaxDurationIndices);
      } else {
        NothingDangling(timing, completedMaxDurationIndices, |rows|);
        assert View().notes[..|rows|] == View().notes;
      }
      segment := NoteSegment(timing.(rows := rows));
    }
  }
}
