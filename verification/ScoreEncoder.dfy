/** `score_contract_from_records` as the benchmark runs it: an encoder object and loops that count rows. */
module ScoreEncoder {
  import opened Base
  import opened Utf8Text
  import opened ScoreContract

  // ----- Counts

  function SummaryUpTo(tracks: seq<TrackRecord>, n: nat): RowCounts
    requires n <= |tracks|
  {
    if n == 0 then RowCounts(|tracks|, 0, 0, 0, 0, 0, 0, 0, 0, 0)
    else
      var before, t := SummaryUpTo(tracks, n - 1), tracks[n - 1];
      before.(notes := before.notes + |t.notes|, controls := before.controls + |t.controls|,
              pitchBends := before.pitchBends + |t.pitchBends|, pedals := before.pedals + |t.pedals|,
              lyrics := before.lyrics + |t.lyrics|)
  }

  /** Every count is the number of encoded rows of its category, over all tracks. */
  function SummaryOf(s: ScoreRecord): RowCounts {
    SummaryUpTo(s.tracks, |s.tracks|).(
      timeSignatures := |s.timeSignatures|, keySignatures := |s.keySignatures|,
      tempos := |s.tempos|, markers := |s.markers|)
  }

  // ----- Appending at the end instead of the front

  lemma {:induction false} RowAppend(row: EventRow, v: int)
    requires RowFits(row) && Signed64(v)
    ensures RowFits(row + [v]) && RowBytes(row + [v]) == RowBytes(row) + IntBytes(v)
  {
    hide IntBytes, Signed64;
    if row == [] {
      assert [] + [v] == [v] && RowBytes([v][1..]) == [];
    } else {
      assert (row + [v])[1..] == row[1..] + [v];
      assert RowFits(row[1..]);
      RowAppend(row[1..], v);
    }
  }

  lemma {:induction false} RowListAppend(rows: seq<EventRow>, row: EventRow)
    requires (forall i :: 0 <= i < |rows| ==> RowFits(rows[i])) && RowFits(row)
    ensures RowListBytes(rows + [row]) == RowListBytes(rows) + RowBytes(row)
  {
    hide RowBytes, RowFits;
    if rows == [] {
      assert [] + [row] == [row] && RowListBytes([row][1..]) == [];
    } else {
      assert (rows + [row])[1..] == rows[1..] + [row];
      RowListAppend(rows[1..], row);
    }
  }

  lemma {:induction false} TextListAppend(texts: seq<TextRecord>, r: TextRecord)
    requires (forall i :: 0 <= i < |texts| ==> TextRecordFits(texts[i])) && TextRecordFits(r)
    ensures TextListBytes(texts + [r]) == TextListBytes(texts) + TextRecordBytes(r)
  {
    hide TextRecordBytes, TextRecordFits;
    if texts == [] {
      assert [] + [r] == [r] && TextListBytes([r][1..]) == [];
    } else {
      assert (texts + [r])[1..] == texts[1..] + [r];
      TextListAppend(texts[1..], r);
    }
  }

  lemma {:induction false} TrackListAppend(tracks: seq<TrackRecord>, t: TrackRecord)
    requires (forall i :: 0 <= i < |tracks| ==> TrackFits(tracks[i])) && TrackFits(t)
    ensures TrackListBytes(tracks + [t]) == TrackListBytes(tracks) + TrackBytes(t)
  {
    hide TrackBytes, TrackFits;
    if tracks == [] {
      assert [] + [t] == [t] && TrackListBytes([t][1..]) == [];
    } else {
      assert (tracks + [t])[1..] == tracks[1..] + [t];
      TrackListAppend(tracks[1..], t);
    }
  }

  // ----- The encoder

  class Encoder {
    var output: Bytes

    constructor ()
      ensures output == MAGIC
    {
      output := MAGIC;
    }

    method Integer(v: int) returns (r: Result<(), Raised>)
      modifies this
      ensures r.Ok? <==> Signed64(v)
      ensures r.Ok? ==> output == old(output) + IntBytes(v)
    {
      if !(-0x8000_0000_0000_0000 <= v < 0x8000_0000_0000_0000) {
        return Err(ValueError);
      }
      output := output + IntBytes(v);
      r := Ok(());
    }

    method Count(n: nat) returns (r: Result<(), Raised>)
      modifies this
      ensures r.Ok? <==> CountFits(n)
      ensures r.Ok? ==> output == old(output) + CountBytes(n)
    {
      if n > U64_MAX {
        return Err(OverflowError);
      }
      output := output + CountBytes(n);
      r := Ok(());
    }

    method Boolean(b: bool)
      modifies this
      ensures output == old(output) + BoolBytes(b)
    {
      output := output + [if b then 1 else 0];
    }

    method EncodeString(text: Text) returns (r: Result<(), Raised>)
      modifies this
      ensures r.Ok? <==> TextFits(text)
      ensures r.Ok? ==> output == old(output) + TextBytes(text)
    {
      hide EncodeText, CountBytes;
      if exists i :: 0 <= i < |text| && !IsScalar(text[i]) {
        return Err(UnicodeEncodeError);
      }
      var encoded := EncodeText(text);
      var _ :- Count(|encoded|);
      output := output + encoded;
      r := Ok(());
    }

    method Fields(row: EventRow) returns (r: Result<(), Raised>)
      modifies this
      ensures r.Ok? <==> RowFits(row)
      ensures r.Ok? ==> output == old(output) + RowBytes(row)
    {
      hide IntBytes, RowBytes, Signed64;
      NoBytes();
      for i := 0 to |row|
        invariant RowFits(row[..i]) && output == old(output) + RowBytes(row[..i])
      {
        var _ :- Integer(row[i]);
        RowAppend(row[..i], row[i]);
        assert row[..i + 1] == row[..i] + [row[i]];
      }
      assert row[..|row|] == row;
      r := Ok(());
    }

    /** A count, then every event's fields in schema order. */
    method Events(rows: seq<EventRow>) returns (r: Result<(), Raised>)
      modifies this
      ensures r.Ok? <==> RowListFits(rows)
      ensures r.Ok? ==> output == old(output) + RowsBytes(rows)
    {
      hide RowBytes, RowListBytes, RowFits, CountBytes;
      NoBytes();
      var _ :- Count(|rows|);
      for i := 0 to |rows|
        invariant forall k :: 0 <= k < i ==> RowFits(rows[k])
        invariant output == old(output) + (CountBytes(|rows|) + RowListBytes(rows[..i]))
      {
        var _ :- Fields(rows[i]);
        RowListAppend(rows[..i], rows[i]);
        assert rows[..i + 1] == rows[..i] + [rows[i]];
      }
      assert rows[..|rows|] == rows;
      r := Ok(());
    }

    method TextEvents(texts: seq<TextRecord>) returns (r: Result<(), Raised>)
      modifies this
      ensures r.Ok? <==> TextsFit(texts)
      ensures r.Ok? ==> output == old(output) + TextsBytes(texts)
    {
      hide TextBytes, IntBytes, TextListBytes, TextFits, CountBytes;
      NoBytes();
      var _ :- Count(|texts|);
      for i := 0 to |texts|
        invariant forall k :: 0 <= k < i ==> TextRecordFits(texts[k])
        invariant output == old(output) + (CountBytes(|texts|) + TextListBytes(texts[..i]))
      {
        var _ :- Integer(texts[i].time);
        var _ :- EncodeString(texts[i].text);
        TextListAppend(texts[..i], texts[i]);
        assert texts[..i + 1] == texts[..i] + [texts[i]];
      }
      assert texts[..|texts|] == texts;
      r := Ok(());
    }

    method Track(t: TrackRecord) returns (r: Result<(), Raised>)
      modifies this
      ensures r.Ok? <==> TrackFits(t)
      ensures r.Ok? ==> output == old(output) + TrackBytes(t)
    {
      hide TextBytes, IntBytes, BoolBytes, RowsBytes, TextsBytes, TextFits, Signed64, RowListFits, TextsFit;
      var _ :- EncodeString(t.name);
      var _ :- Integer(t.program);
      Boolean(t.isDrum);
      var _ :- Events(t.notes);
      var _ :- Events(t.controls);
      var _ :- Events(t.pitchBends);
      var _ :- Events(t.pedals);
      var _ :- TextEvents(t.lyrics);
      r := Ok(());
    }
  }

  lemma NoBytes()
    ensures RowBytes([]) == [] && RowListBytes([]) == [] && TextListBytes([]) == [] && TrackListBytes([]) == []
  {}

  method EncodeTracks(encoder: Encoder, tracks: seq<TrackRecord>) returns (r: Result<RowCounts, Raised>)
    modifies encoder
    ensures r.Ok? <==> TrackListFits(tracks)
    ensures r.Ok? ==> encoder.output == old(encoder.output) + TracksBytes(tracks)
    ensures r.Ok? ==> r.value == SummaryUpTo(tracks, |tracks|)
  {
    hide TrackBytes, TrackListBytes, TrackFits, CountBytes;
    NoBytes();
    var _ :- encoder.Count(|tracks|);
    var counts := RowCounts(|tracks|, 0, 0, 0, 0, 0, 0, 0, 0, 0);
    for i := 0 to |tracks|
      invariant forall k :: 0 <= k < i ==> TrackFits(tracks[k])
      invariant encoder.output == old(encoder.output) + (CountBytes(|tracks|) + TrackListBytes(tracks[..i]))
      invariant counts == SummaryUpTo(tracks, i)
    {
      var t := tracks[i];
      var _ :- encoder.Track(t);
      counts := counts.(notes := counts.notes + |t.notes|, controls := counts.controls + |t.controls|,
                        pitchBends := counts.pitchBends + |t.pitchBends|, pedals := counts.pedals + |t.pedals|,
                        lyrics := counts.lyrics + |t.lyrics|);
      TrackListAppend(tracks[..i], t);
      assert tracks[..i + 1] == tracks[..i] + [t];
    }
    assert tracks[..|tracks|] == tracks;
    r := Ok(counts);
  }

  /** The canonical bytes and the summary; it raises exactly for records that do not fit the encoding. */
  method ScoreContractFromRecords(s: ScoreRecord) returns (r: Result<(Bytes, RowCounts), Raised>)
    ensures r.Ok? <==> ScoreFits(s)
    ensures r.Ok? ==> r.value == (ScoreBytes(s), SummaryOf(s))
  {
    hide IntBytes, TracksBytes, RowsBytes, TextsBytes, Signed64, TrackListFits, RowListFits, TextsFit, SummaryUpTo;
    var encoder := new Encoder();
    var _ :- encoder.Integer(s.tpq);
    var counts :- EncodeTracks(encoder, s.tracks);
    var _ :- encoder.Events(s.timeSignatures);
    var _ :- encoder.Events(s.keySignatures);
    var _ :- encoder.Events(s.tempos);
    var _ :- encoder.TextEvents(s.markers);
    counts := counts.(timeSignatures := |s.timeSignatures|, keySignatures := |s.keySignatures|,
                      tempos := |s.tempos|, markers := |s.markers|);
    assert encoder.output == ScoreBytes(s);
    assert counts == SummaryOf(s);
    r := Ok((encoder.output, counts));
  }
}
