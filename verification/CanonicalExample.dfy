/** One score with a row of every kind, and its canonical bytes written out. */
module CanonicalExample {
  import opened Base
  import opened Utf8Text
  import opened ScoreContract

  /** The eight bytes of a number below 256. */
  function Eight(n: u8): Bytes {
    [0, 0, 0, 0, 0, 0, 0, n]
  }

  const TRACK: TrackRecord :=
    TrackRecord([0x41], 7, true, [[1, 2, 3, 4]], [[5, 6, 8]], [[9, 10]], [[11, 12]], [TextRecord(13, [0x42])])

  const SCORE: ScoreRecord :=
    ScoreRecord(96, [TRACK], [[14, 15, 16]], [[17, 18, 19]], [[20, 21]], [TextRecord(22, [0x43])])

  const TRACK_BYTES: Bytes :=
    (Eight(1) + [0x41])
    + (Eight(7)
    + ([1]
    + ((Eight(1) + (Eight(1) + (Eight(2) + (Eight(3) + Eight(4)))))
    + ((Eight(1) + (Eight(5) + (Eight(6) + Eight(8))))
    + ((Eight(1) + (Eight(9) + Eight(10)))
    + ((Eight(1) + (Eight(11) + Eight(12)))
    + (Eight(1) + (Eight(13) + (Eight(1) + [0x42])))))))))

  const SCORE_BYTES: Bytes :=
    [0x4D, 0x49, 0x53, 0x4F, 0x2D, 0x53, 0x43, 0x4F, 0x52, 0x45, 0x2D,
     0x43, 0x4F, 0x4E, 0x54, 0x52, 0x41, 0x43, 0x54, 0x00, 0x01]
    + (Eight(96)
    + ((Eight(1) + TRACK_BYTES)
    + ((Eight(1) + (Eight(14) + (Eight(15) + Eight(16))))
    + ((Eight(1) + (Eight(17) + (Eight(18) + Eight(19))))
    + ((Eight(1) + (Eight(20) + Eight(21)))
    + (Eight(1) + (Eight(22) + (Eight(1) + [0x43]))))))))

  lemma SmallInt(n: u8)
    ensures IntBytes(n) == Eight(n) && CountBytes(n) == Eight(n)
  {
    assert BigEndian(n, 8) == BigEndian(0, 7) + [n as u8];
    assert BigEndian(0, 7) == [0, 0, 0, 0, 0, 0, 0] by {
      assert BigEndian(0, 1) == [0];
      assert BigEndian(0, 2) == [0, 0];
      assert BigEndian(0, 3) == [0, 0, 0];
      assert BigEndian(0, 4) == [0, 0, 0, 0];
      assert BigEndian(0, 5) == [0, 0, 0, 0, 0];
      assert BigEndian(0, 6) == [0, 0, 0, 0, 0, 0];
    }
  }

  lemma OneText(c: Scalar)
    requires c < 0x80
    ensures TextFits([c]) && TextBytes([c]) == Eight(1) + [c]
  {
    hide CountBytes, Eight;
    assert EncodeText([c][1..]) == [];
    assert EncodeText([c]) == [c];
    SmallInt(1);
  }

  lemma TwoInts(a: u8, b: u8)
    ensures RowFits([a, b]) && RowBytes([a, b]) == Eight(a) + Eight(b)
  {
    hide IntBytes, CountBytes, Eight;
    SmallInt(a);
    SmallInt(b);
    assert [a as int, b][1..] == [b] && [b as int][1..] == [];
    assert RowBytes([b]) == Eight(b) + [];
  }

  lemma MoreInts(a: u8, row: EventRow)
    requires RowFits(row)
    ensures RowFits([a] + row) && RowBytes([a as int] + row) == Eight(a) + RowBytes(row)
  {
    hide IntBytes, CountBytes, Eight;
    SmallInt(a);
    assert ([a as int] + row)[1..] == row;
  }

  lemma OneRow(row: EventRow)
    requires RowFits(row)
    ensures RowListFits([row]) && RowsBytes([row]) == Eight(1) + RowBytes(row)
  {
    hide CountBytes, Eight, RowBytes, RowFits;
    SmallInt(1);
    assert [row][1..] == [];
    assert RowListBytes([row]) == RowBytes(row) + [];
  }

  lemma OneTextRecord(time: u8, c: Scalar)
    requires c < 0x80
    ensures TextsFit([TextRecord(time, [c])])
    ensures TextsBytes([TextRecord(time, [c])]) == Eight(1) + (Eight(time) + (Eight(1) + [c]))
  {
    hide CountBytes, IntBytes, Eight, TextBytes, TextFits;
    SmallInt(1);
    SmallInt(time);
    OneText(c);
    var r := TextRecord(time, [c]);
    assert [r][1..] == [];
    assert TextListBytes([r]) == TextRecordBytes(r) + [];
  }

  lemma TwoRow(a: u8, b: u8)
    ensures RowListFits([[a, b]]) && RowsBytes([[a, b]]) == Eight(1) + (Eight(a) + Eight(b))
  {
    hide RowListFits, RowFits, RowsBytes, RowBytes, Eight;
    TwoInts(a, b);
    OneRow([a, b]);
  }

  lemma ThreeRow(a: u8, b: u8, c: u8)
    ensures RowListFits([[a, b, c]]) && RowsBytes([[a, b, c]]) == Eight(1) + (Eight(a) + (Eight(b) + Eight(c)))
  {
    hide RowListFits, RowFits, RowsBytes, RowBytes, Eight;
    TwoInts(b, c);
    MoreInts(a, [b, c]);
    assert [a as int] + [b as int, c] == [a as int, b, c];
    OneRow([a, b, c]);
  }

  lemma FourRow(a: u8, b: u8, c: u8, d: u8)
    ensures RowListFits([[a, b, c, d]])
    ensures RowsBytes([[a, b, c, d]]) == Eight(1) + (Eight(a) + (Eight(b) + (Eight(c) + Eight(d))))
  {
    hide RowListFits, RowFits, RowsBytes, RowBytes, Eight;
    TwoInts(c, d);
    MoreInts(b, [c, d]);
    assert [b as int] + [c as int, d] == [b as int, c, d];
    MoreInts(a, [b, c, d]);
    assert [a as int] + [b as int, c, d] == [a as int, b, c, d];
    OneRow([a, b, c, d]);
  }

  lemma TrackExample()
    ensures TrackFits(TRACK) && TrackBytes(TRACK) == TRACK_BYTES
  {
    hide RowListFits, RowsBytes, TextsFit, TextsBytes, TextFits, TextBytes, IntBytes, Eight;
    OneText(0x41);
    SmallInt(7);
    FourRow(1, 2, 3, 4);
    ThreeRow(5, 6, 8);
    TwoRow(9, 10);
    TwoRow(11, 12);
    OneTextRecord(13, 0x42);
  }

  lemma OneTrack(t: TrackRecord)
    requires TrackFits(t)
    ensures TrackListFits([t]) && TracksBytes([t]) == Eight(1) + TrackBytes(t)
  {
    hide CountBytes, Eight, TrackBytes, TrackFits;
    SmallInt(1);
    assert [t][1..] == [];
    assert TrackListBytes([t]) == TrackBytes(t) + [];
  }

  /** The magic, then every field in its place: nothing can be exchanged, widened or reordered. */
  lemma ScoreExample()
    ensures ScoreFits(SCORE) && ScoreBytes(SCORE) == SCORE_BYTES
  {
    hide RowListFits, RowsBytes, TextsFit, TextsBytes, IntBytes, Eight, TrackListFits, TracksBytes, TrackBytes, TrackFits;
    SmallInt(96);
    TrackExample();
    OneTrack(TRACK);
    ThreeRow(14, 15, 16);
    ThreeRow(17, 18, 19);
    TwoRow(20, 21);
    OneTextRecord(22, 0x43);
  }
}
