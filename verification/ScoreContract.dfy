/**
  The benchmark's canonical score encoding: its encoder, a decoder that inverts
  it, and so that equal bytes mean equal scores.
 */
module ScoreContract {
  import opened Base
  import opened NoteColumns
  import opened Utf8Text
  import opened VlqCodec

  // ----- Records

  /** The integer fields of one event, in the order of its schema. */
  type EventRow = seq<int>
  type Text = seq<CodePoint>

  datatype TextRecord = TextRecord(time: int, text: Text)

  datatype TrackRecord = TrackRecord(
    name: Text,
    program: int,
    isDrum: bool,
    notes: seq<EventRow>,
    controls: seq<EventRow>,
    pitchBends: seq<EventRow>,
    pedals: seq<EventRow>,
    lyrics: seq<TextRecord>)

  datatype ScoreRecord = ScoreRecord(
    tpq: int,
    tracks: seq<TrackRecord>,
    timeSignatures: seq<EventRow>,
    keySignatures: seq<EventRow>,
    tempos: seq<EventRow>,
    markers: seq<TextRecord>)

  datatype RowCounts = RowCounts(
    tracks: nat, notes: nat, controls: nat, pitchBends: nat, pedals: nat, lyrics: nat,
    timeSignatures: nat, keySignatures: nat, tempos: nat, markers: nat)

  datatype Raised = ValueError | OverflowError | UnicodeEncodeError

  // Widths of the event schemas: time, duration, pitch, velocity; and so on.
  const NOTE := 4
  const CONTROL := 3
  const BEND := 2
  const PEDAL := 2
  const SIGNATURE := 3
  const TEMPO := 2

  // ----- Which records can be encoded

  predicate Signed64(v: int) {
    -0x8000_0000_0000_0000 <= v < 0x8000_0000_0000_0000
  }

  predicate CountFits(n: nat) {
    n <= U64_MAX
  }

  predicate RowFits(row: EventRow) {
    forall i :: 0 <= i < |row| ==> Signed64(row[i])
  }

  predicate RowListFits(rows: seq<EventRow>) {
    CountFits(|rows|) && forall i :: 0 <= i < |rows| ==> RowFits(rows[i])
  }

  /** No lone surrogates, and a length that fits its prefix. */
  predicate TextFits(text: Text) {
    (forall i :: 0 <= i < |text| ==> IsScalar(text[i])) && CountFits(|EncodeText(text)|)
  }

  predicate TextRecordFits(r: TextRecord) {
    Signed64(r.time) && TextFits(r.text)
  }

  predicate TextsFit(texts: seq<TextRecord>) {
    CountFits(|texts|) && forall i :: 0 <= i < |texts| ==> TextRecordFits(texts[i])
  }

  predicate TrackFits(t: TrackRecord) {
    && TextFits(t.name) && Signed64(t.program)
    && RowListFits(t.notes) && RowListFits(t.controls) && RowListFits(t.pitchBends) && RowListFits(t.pedals) && TextsFit(t.lyrics)
  }

  predicate TrackListFits(tracks: seq<TrackRecord>) {
    CountFits(|tracks|) && forall i :: 0 <= i < |tracks| ==> TrackFits(tracks[i])
  }

  predicate ScoreFits(s: ScoreRecord) {
    && Signed64(s.tpq) && TrackListFits(s.tracks)
    && RowListFits(s.timeSignatures) && RowListFits(s.keySignatures) && RowListFits(s.tempos) && TextsFit(s.markers)
  }

  // ----- Schemas

  predicate Wide(rows: seq<EventRow>, width: nat) {
    forall i :: 0 <= i < |rows| ==> |rows[i]| == width
  }

  predicate TrackShaped(t: TrackRecord) {
    Wide(t.notes, NOTE) && Wide(t.controls, CONTROL) && Wide(t.pitchBends, BEND) && Wide(t.pedals, PEDAL)
  }

  /** Every event carries exactly the fields of its schema. */
  predicate FieldsShaped(s: ScoreRecord) {
    && (forall i :: 0 <= i < |s.tracks| ==> TrackShaped(s.tracks[i]))
    && Wide(s.timeSignatures, SIGNATURE) && Wide(s.keySignatures, SIGNATURE) && Wide(s.tempos, TEMPO)
  }

  // ----- The canonical bytes

  function BigEndian(n: nat, width: nat): (s: Bytes)
    ensures |s| == width
  {
    if width == 0 then [] else BigEndian(n / 0x100, width - 1) + [n % 0x100]
  }

  function CountBytes(n: nat): (s: Bytes)
    ensures |s| == 8
  {
    BigEndian(n, 8)
  }

  /** Two's complement in 64 bits. */
  function IntBytes(v: int): (s: Bytes)
    requires Signed64(v)
    ensures |s| == 8
  {
    BigEndian(if v < 0 then v + 0x1_0000_0000_0000_0000 else v, 8)
  }

  function BoolBytes(b: bool): Bytes {
    [if b then 1 else 0]
  }

  function RowBytes(row: EventRow): Bytes
    requires RowFits(row)
  {
    if row == [] then [] else IntBytes(row[0]) + RowBytes(row[1..])
  }

  function RowListBytes(rows: seq<EventRow>): Bytes
    requires forall i :: 0 <= i < |rows| ==> RowFits(rows[i])
  {
    if rows == [] then [] else RowBytes(rows[0]) + RowListBytes(rows[1..])
  }

  function RowsBytes(rows: seq<EventRow>): Bytes
    requires RowListFits(rows)
  {
    CountBytes(|rows|) + RowListBytes(rows)
  }

  function TextBytes(text: Text): Bytes
    requires TextFits(text)
  {
    CountBytes(|EncodeText(text)|) + EncodeText(text)
  }

  function TextRecordBytes(r: TextRecord): Bytes
    requires TextRecordFits(r)
  {
    IntBytes(r.time) + TextBytes(r.text)
  }

  function TextListBytes(texts: seq<TextRecord>): Bytes
    requires forall i :: 0 <= i < |texts| ==> TextRecordFits(texts[i])
  {
    if texts == [] then [] else TextRecordBytes(texts[0]) + TextListBytes(texts[1..])
  }

  function TextsBytes(texts: seq<TextRecord>): Bytes
    requires TextsFit(texts)
  {
    CountBytes(|texts|) + TextListBytes(texts)
  }

  function ColumnsBytes(t: TrackRecord): Bytes
    requires TrackFits(t)
  {
    RowsBytes(t.notes) + (RowsBytes(t.controls) + (RowsBytes(t.pitchBends) + (RowsBytes(t.pedals) + TextsBytes(t.lyrics))))
  }

  function TrackBytes(t: TrackRecord): Bytes
    requires TrackFits(t)
  {
    TextBytes(t.name) + (IntBytes(t.program) + (BoolBytes(t.isDrum) + ColumnsBytes(t)))
  }

  function TrackListBytes(tracks: seq<TrackRecord>): Bytes
    requires forall i :: 0 <= i < |tracks| ==> TrackFits(tracks[i])
  {
    if tracks == [] then [] else TrackBytes(tracks[0]) + TrackListBytes(tracks[1..])
  }

  function TracksBytes(tracks: seq<TrackRecord>): Bytes
    requires TrackListFits(tracks)
  {
    CountBytes(|tracks|) + TrackListBytes(tracks)
  }

  /** `MISO-SCORE-CONTRACT`, a zero byte and the version. */
  const MAGIC: Bytes := [0x4D, 0x49, 0x53, 0x4F, 0x2D, 0x53, 0x43, 0x4F, 0x52, 0x45, 0x2D,
                         0x43, 0x4F, 0x4E, 0x54, 0x52, 0x41, 0x43, 0x54, 0x00, 0x01]

  function ScoreBytes(s: ScoreRecord): Bytes
    requires ScoreFits(s)
  {
    MAGIC + (IntBytes(s.tpq) + (TracksBytes(s.tracks) + (RowsBytes(s.timeSignatures) + (RowsBytes(s.keySignatures)
      + (RowsBytes(s.tempos) + TextsBytes(s.markers))))))
  }

  // ----- A decoder

  type Got<T> = Option<(T, nat)>

  function FromBigEndian(s: Bytes): nat {
    if s == [] then 0 else FromBigEndian(s[..|s| - 1]) * 0x100 + s[|s| - 1]
  }

  lemma {:induction false} BigEndianRoundTrip(n: nat, width: nat)
    requires n < Pow256(width)
    ensures FromBigEndian(BigEndian(n, width)) == n
  {
    if width > 0 {
      BigEndianRoundTrip(n / 0x100, width - 1);
      assert BigEndian(n, width)[..width - 1] == BigEndian(n / 0x100, width - 1);
    }
  }

  lemma {:induction false} BigEndianAt(n: nat, width: nat, i: nat)
    requires i < width
    ensures BigEndian(n, width)[i] == n / Pow256(width - 1 - i) % 0x100
  {
    if i == width - 1 {
      assert Pow256(0) == 1;
    } else {
      BigEndianAt(n / 0x100, width - 1, i);
      assert BigEndian(n, width)[i] == BigEndian(n / 0x100, width - 1)[i];
      assert Pow256(width - 1 - i) == 0x100 * Pow256(width - 2 - i);
      DivideByProduct(n, Pow256(width - 2 - i));
    }
  }

  lemma DivideByProduct(n: nat, d: nat)
    requires d > 0
    ensures 0x100 * d > 0 && n / 0x100 / d == n / (0x100 * d)
  {
    var q, r := n / 0x100 / d, n / 0x100 % d;
    var low := n % 0x100;
    assert n == 0x100 * (q * d + r) + low;
    assert n == q * (0x100 * d) + (0x100 * r + low);
    assert 0x100 * r + low < 0x100 * d;
    QuotientIs(n, 0x100 * d, q, 0x100 * r + low);
  }

  lemma {:induction false} SmallMultiple(x: int, d: nat)
    requires x != 0
    ensures if x > 0 then x * d >= d else x * d + d <= 0
    decreases if x > 0 then x else -x
  {
    if x > 1 {
      SmallMultiple(x - 1, d);
      assert x * d == (x - 1) * d + d;
    } else if x < -1 {
      SmallMultiple(x + 1, d);
      assert x * d == (x + 1) * d - d;
    }
  }

  lemma QuotientIs(n: nat, d: nat, q: nat, r: nat)
    requires r < d && n == q * d + r
    ensures n / d == q
  {
    var k := n / d;
    assert n == k * d + n % d;
    assert (k - q) * d == r - n % d;
    if k != q {
      SmallMultiple(k - q, d);
      assert false;
    }
  }

  /** Integers are eight bytes in two's complement, most significant first. */
  lemma IntSpelled(v: int, i: nat)
    requires Signed64(v) && i < 8
    ensures IntBytes(v)[i] == (if v < 0 then v + 0x1_0000_0000_0000_0000 else v) / Pow256(7 - i) % 0x100
  {
    BigEndianAt(if v < 0 then v + 0x1_0000_0000_0000_0000 else v, 8, i);
  }

  function ReadCount(d: Bytes, p: nat): Got<nat> {
    if p + 8 <= |d| then Some((FromBigEndian(d[p..p + 8]), p + 8)) else None
  }

  function ReadInt(d: Bytes, p: nat): Got<int> {
    match ReadCount(d, p)
    case None => None
    case Some((n, q)) => Some((if n >= 0x8000_0000_0000_0000 then n - 0x1_0000_0000_0000_0000 else n, q))
  }

  function ReadBool(d: Bytes, p: nat): Got<bool> {
    if p < |d| && d[p] <= 1 then Some((d[p] == 1, p + 1)) else None
  }

  function ReadRow(d: Bytes, p: nat, width: nat): Got<EventRow>
    decreases width
  {
    if width == 0 then Some(([], p))
    else
      match ReadInt(d, p)
      case None => None
      case Some((v, q)) =>
        match ReadRow(d, q, width - 1)
        case None => None
        case Some((row, r)) => Some(([v] + row, r))
  }

  function ReadRowList(d: Bytes, p: nat, n: nat, width: nat): Got<seq<EventRow>>
    decreases n
  {
    if n == 0 then Some(([], p))
    else
      match ReadRow(d, p, width)
      case None => None
      case Some((row, q)) =>
        match ReadRowList(d, q, n - 1, width)
        case None => None
        case Some((rows, r)) => Some(([row] + rows, r))
  }

  function ReadRows(d: Bytes, p: nat, width: nat): Got<seq<EventRow>> {
    match ReadCount(d, p)
    case None => None
    case Some((n, q)) => ReadRowList(d, q, n, width)
  }

  function ReadText(d: Bytes, p: nat): Got<Text> {
    match ReadCount(d, p)
    case None => None
    case Some((n, q)) =>
      if q + n > |d| then None
      else
        match DecodeText(d[q..q + n])
        case None => None
        case Some(text) => Some((text, q + n))
  }

  function ReadTextRecord(d: Bytes, p: nat): Got<TextRecord> {
    match ReadInt(d, p)
    case None => None
    case Some((time, q)) =>
      match ReadText(d, q)
      case None => None
      case Some((text, r)) => Some((TextRecord(time, text), r))
  }

  function ReadTextList(d: Bytes, p: nat, n: nat): Got<seq<TextRecord>>
    decreases n
  {
    if n == 0 then Some(([], p))
    else
      match ReadTextRecord(d, p)
      case None => None
      case Some((text, q)) =>
        match ReadTextList(d, q, n - 1)
        case None => None
        case Some((texts, r)) => Some(([text] + texts, r))
  }

  function ReadTexts(d: Bytes, p: nat): Got<seq<TextRecord>> {
    match ReadCount(d, p)
    case None => None
    case Some((n, q)) => ReadTextList(d, q, n)
  }

  /** The event columns of a track, behind its fields. */
  function ReadColumns(d: Bytes, p: nat, name: Text, program: int, isDrum: bool): Got<TrackRecord> {
    match ReadRows(d, p, NOTE) case None => None case Some((notes, p1)) =>
    match ReadRows(d, p1, CONTROL) case None => None case Some((controls, p2)) =>
    match ReadRows(d, p2, BEND) case None => None case Some((pitchBends, p3)) =>
    match ReadRows(d, p3, PEDAL) case None => None case Some((pedals, p4)) =>
    match ReadTexts(d, p4) case None => None case Some((lyrics, p5)) =>
    Some((TrackRecord(name, program, isDrum, notes, controls, pitchBends, pedals, lyrics), p5))
  }

  function ReadTrack(d: Bytes, p: nat): Got<TrackRecord> {
    match ReadText(d, p) case None => None case Some((name, p1)) =>
    match ReadInt(d, p1) case None => None case Some((program, p2)) =>
    match ReadBool(d, p2) case None => None case Some((isDrum, p3)) =>
    ReadColumns(d, p3, name, program, isDrum)
  }

  function ReadTrackList(d: Bytes, p: nat, n: nat): Got<seq<TrackRecord>>
    decreases n
  {
    if n == 0 then Some(([], p))
    else
      match ReadTrack(d, p)
      case None => None
      case Some((track, q)) =>
        match ReadTrackList(d, q, n - 1)
        case None => None
        case Some((tracks, r)) => Some(([track] + tracks, r))
  }

  function ReadTracks(d: Bytes, p: nat): Got<seq<TrackRecord>> {
    match ReadCount(d, p)
    case None => None
    case Some((n, q)) => ReadTrackList(d, q, n)
  }

  function ReadScore(d: Bytes, p: nat): Got<ScoreRecord> {
    if !StandsAt(d, p, MAGIC) then None
    else
      match ReadInt(d, p + |MAGIC|) case None => None case Some((tpq, p1)) =>
      match ReadTracks(d, p1) case None => None case Some((tracks, p2)) =>
      match ReadRows(d, p2, SIGNATURE) case None => None case Some((timeSignatures, p3)) =>
      match ReadRows(d, p3, SIGNATURE) case None => None case Some((keySignatures, p4)) =>
      match ReadRows(d, p4, TEMPO) case None => None case Some((tempos, p5)) =>
      match ReadTexts(d, p5) case None => None case Some((markers, p6)) =>
      Some((ScoreRecord(tpq, tracks, timeSignatures, keySignatures, tempos, markers), p6))
  }

  // ----- Every level is self-delimiting: the decoder returns the value and exactly the rest

  lemma CountRoundTrip(d: Bytes, p: nat, n: nat)
    requires CountFits(n) && StandsAt(d, p, CountBytes(n))
    ensures ReadCount(d, p) == Some((n, p + 8))
  {
    Widths();
    hide Pow256, FromBigEndian;
    BigEndianRoundTrip(n, 8);
  }

  lemma IntRoundTrip(d: Bytes, p: nat, v: int)
    requires Signed64(v) && StandsAt(d, p, IntBytes(v))
    ensures ReadInt(d, p) == Some((v, p + 8))
  {
    hide BigEndian, ReadCount;
    CountRoundTrip(d, p, if v < 0 then v + 0x1_0000_0000_0000_0000 else v);
  }

  lemma BoolRoundTrip(d: Bytes, p: nat, b: bool)
    requires StandsAt(d, p, BoolBytes(b))
    ensures ReadBool(d, p) == Some((b, p + 1))
  {
    assert d[p] == d[p..p + 1][0];
  }

  lemma {:induction false} RowRoundTrip(d: Bytes, p: nat, row: EventRow)
    requires RowFits(row) && StandsAt(d, p, RowBytes(row))
    ensures ReadRow(d, p, |row|) == Some((row, p + |RowBytes(row)|))
    decreases |row|
  {
    hide IntBytes, ReadInt, Signed64;
    if row != [] {
      assert Signed64(row[0]) && forall i :: 0 <= i < |row[1..]| ==> Signed64(row[1..][i]);
      StandsSplit(d, p, IntBytes(row[0]), RowBytes(row[1..]));
      IntRoundTrip(d, p, row[0]);
      RowRoundTrip(d, p + 8, row[1..]);
      assert [row[0]] + row[1..] == row;
    }
  }

  lemma {:induction false} RowListRoundTrip(d: Bytes, p: nat, rows: seq<EventRow>, width: nat)
    requires (forall i :: 0 <= i < |rows| ==> RowFits(rows[i])) && Wide(rows, width) && StandsAt(d, p, RowListBytes(rows))
    ensures ReadRowList(d, p, |rows|, width) == Some((rows, p + |RowListBytes(rows)|))
    decreases |rows|
  {
    hide RowBytes, ReadRow, RowFits;
    if rows != [] {
      var rest := rows[1..];
      assert RowFits(rows[0]) && forall i :: 0 <= i < |rest| ==> RowFits(rest[i]);
      StandsSplit(d, p, RowBytes(rows[0]), RowListBytes(rest));
      RowRoundTrip(d, p, rows[0]);
      RowListRoundTrip(d, p + |RowBytes(rows[0])|, rest, width);
      assert [rows[0]] + rest == rows;
    }
  }

  lemma RowsRoundTrip(d: Bytes, p: nat, rows: seq<EventRow>, width: nat)
    requires RowListFits(rows) && Wide(rows, width) && StandsAt(d, p, RowsBytes(rows))
    ensures ReadRows(d, p, width) == Some((rows, p + |RowsBytes(rows)|))
  {
    hide CountBytes, RowListBytes, ReadCount, ReadRowList;
    StandsSplit(d, p, CountBytes(|rows|), RowListBytes(rows));
    CountRoundTrip(d, p, |rows|);
    RowListRoundTrip(d, p + 8, rows, width);
  }

  lemma TextPrefixRoundTrip(d: Bytes, p: nat, text: Text)
    requires TextFits(text) && StandsAt(d, p, TextBytes(text))
    ensures ReadText(d, p) == Some((text, p + |TextBytes(text)|))
  {
    hide CountBytes, ReadCount, EncodeText, DecodeText;
    StandsSplit(d, p, CountBytes(|EncodeText(text)|), EncodeText(text));
    CountRoundTrip(d, p, |EncodeText(text)|);
    TextRoundTrip(text);
  }

  lemma TextRecordRoundTrip(d: Bytes, p: nat, r: TextRecord)
    requires TextRecordFits(r) && StandsAt(d, p, TextRecordBytes(r))
    ensures ReadTextRecord(d, p) == Some((r, p + |TextRecordBytes(r)|))
  {
    hide IntBytes, TextBytes, ReadInt, ReadText;
    StandsSplit(d, p, IntBytes(r.time), TextBytes(r.text));
    IntRoundTrip(d, p, r.time);
    TextPrefixRoundTrip(d, p + 8, r.text);
  }

  lemma {:induction false} TextListRoundTrip(d: Bytes, p: nat, texts: seq<TextRecord>)
    requires (forall i :: 0 <= i < |texts| ==> TextRecordFits(texts[i])) && StandsAt(d, p, TextListBytes(texts))
    ensures ReadTextList(d, p, |texts|) == Some((texts, p + |TextListBytes(texts)|))
    decreases |texts|
  {
    hide TextRecordBytes, ReadTextRecord, TextRecordFits;
    if texts != [] {
      var rest := texts[1..];
      assert TextRecordFits(texts[0]) && forall i :: 0 <= i < |rest| ==> TextRecordFits(rest[i]);
      StandsSplit(d, p, TextRecordBytes(texts[0]), TextListBytes(rest));
      TextRecordRoundTrip(d, p, texts[0]);
      TextListRoundTrip(d, p + |TextRecordBytes(texts[0])|, rest);
      assert [texts[0]] + rest == texts;
    }
  }

  lemma TextsRoundTrip(d: Bytes, p: nat, texts: seq<TextRecord>)
    requires TextsFit(texts) && StandsAt(d, p, TextsBytes(texts))
    ensures ReadTexts(d, p) == Some((texts, p + |TextsBytes(texts)|))
  {
    hide CountBytes, TextListBytes, ReadCount, ReadTextList;
    StandsSplit(d, p, CountBytes(|texts|), TextListBytes(texts));
    CountRoundTrip(d, p, |texts|);
    TextListRoundTrip(d, p + 8, texts);
  }

  lemma ColumnsRoundTrip(d: Bytes, p: nat, t: TrackRecord)
    requires TrackFits(t) && TrackShaped(t) && StandsAt(d, p, ColumnsBytes(t))
    ensures ReadColumns(d, p, t.name, t.program, t.isDrum) == Some((t, p + |ColumnsBytes(t)|))
  {
    hide RowsBytes, TextsBytes, ReadRows, ReadTexts, TextFits, RowListFits, TextsFit, Wide;
    var b4 := TextsBytes(t.lyrics);
    var b3 := RowsBytes(t.pedals) + b4;
    var b2 := RowsBytes(t.pitchBends) + b3;
    var b1 := RowsBytes(t.controls) + b2;
    StandsSplit(d, p, RowsBytes(t.notes), b1);
    RowsRoundTrip(d, p, t.notes, NOTE);
    var p1 := p + |RowsBytes(t.notes)|;
    StandsSplit(d, p1, RowsBytes(t.controls), b2);
    RowsRoundTrip(d, p1, t.controls, CONTROL);
    var p2 := p1 + |RowsBytes(t.controls)|;
    StandsSplit(d, p2, RowsBytes(t.pitchBends), b3);
    RowsRoundTrip(d, p2, t.pitchBends, BEND);
    var p3 := p2 + |RowsBytes(t.pitchBends)|;
    StandsSplit(d, p3, RowsBytes(t.pedals), b4);
    RowsRoundTrip(d, p3, t.pedals, PEDAL);
    TextsRoundTrip(d, p3 + |RowsBytes(t.pedals)|, t.lyrics);
  }


  lemma TrackRoundTrip(d: Bytes, p: nat, t: TrackRecord)
    requires TrackFits(t) && TrackShaped(t) && StandsAt(d, p, TrackBytes(t))
    ensures ReadTrack(d, p) == Some((t, p + |TrackBytes(t)|))
  {
    hide TextBytes, IntBytes, BoolBytes, RowsBytes, TextsBytes, ReadText, ReadInt, ReadBool, ReadTexts,
         TextFits, RowListFits, TextsFit, Wide, ReadColumns, ColumnsBytes;
    var b3 := BoolBytes(t.isDrum) + ColumnsBytes(t);
    var b2 := IntBytes(t.program) + b3;
    assert TrackBytes(t) == TextBytes(t.name) + b2;
    StandsSplit(d, p, TextBytes(t.name), b2);
    TextPrefixRoundTrip(d, p, t.name);
    var p1 := p + |TextBytes(t.name)|;
    StandsSplit(d, p1, IntBytes(t.program), b3);
    IntRoundTrip(d, p1, t.program);
    StandsSplit(d, p1 + 8, BoolBytes(t.isDrum), ColumnsBytes(t));
    BoolRoundTrip(d, p1 + 8, t.isDrum);
    OneByte(t.isDrum);
    ColumnsRoundTrip(d, p1 + 9, t);
  }

  lemma OneByte(b: bool)
    ensures |BoolBytes(b)| == 1
  {}

  lemma {:induction false} TrackListRoundTrip(d: Bytes, p: nat, tracks: seq<TrackRecord>)
    requires forall i :: 0 <= i < |tracks| ==> TrackFits(tracks[i]) && TrackShaped(tracks[i])
    requires StandsAt(d, p, TrackListBytes(tracks))
    ensures ReadTrackList(d, p, |tracks|) == Some((tracks, p + |TrackListBytes(tracks)|))
    decreases |tracks|
  {
    hide TrackBytes, ReadTrack, TrackFits, TrackShaped;
    if tracks != [] {
      var rest := tracks[1..];
      assert TrackFits(tracks[0]) && forall i :: 0 <= i < |rest| ==> TrackFits(rest[i]) && TrackShaped(rest[i]);
      StandsSplit(d, p, TrackBytes(tracks[0]), TrackListBytes(rest));
      TrackRoundTrip(d, p, tracks[0]);
      TrackListRoundTrip(d, p + |TrackBytes(tracks[0])|, rest);
      assert [tracks[0]] + rest == tracks;
    }
  }

  lemma TracksRoundTrip(d: Bytes, p: nat, tracks: seq<TrackRecord>)
    requires TrackListFits(tracks) && (forall i :: 0 <= i < |tracks| ==> TrackShaped(tracks[i]))
    requires StandsAt(d, p, TracksBytes(tracks))
    ensures ReadTracks(d, p) == Some((tracks, p + |TracksBytes(tracks)|))
  {
    hide CountBytes, TrackListBytes, ReadCount, ReadTrackList, TrackFits, TrackShaped;
    StandsSplit(d, p, CountBytes(|tracks|), TrackListBytes(tracks));
    CountRoundTrip(d, p, |tracks|);
    TrackListRoundTrip(d, p + 8, tracks);
  }

  /** Decoding the canonical bytes, wherever they stand, returns the score and stops right behind them. */
  lemma ScoreRoundTrip(d: Bytes, p: nat, s: ScoreRecord)
    requires ScoreFits(s) && FieldsShaped(s) && StandsAt(d, p, ScoreBytes(s))
    ensures ReadScore(d, p) == Some((s, p + |ScoreBytes(s)|))
  {
    hide IntBytes, TracksBytes, RowsBytes, TextsBytes, ReadInt, ReadTracks, ReadRows, ReadTexts, TrackListFits, RowListFits, TextsFit,
         Wide, TrackShaped, StandsAt;
    var b6 := TextsBytes(s.markers);
    var b5 := RowsBytes(s.tempos) + b6;
    var b4 := RowsBytes(s.keySignatures) + b5;
    var b3 := RowsBytes(s.timeSignatures) + b4;
    var b2 := TracksBytes(s.tracks) + b3;
    var b1 := IntBytes(s.tpq) + b2;
    StandsSplit(d, p, MAGIC, b1);
    var p0 := p + |MAGIC|;
    StandsSplit(d, p0, IntBytes(s.tpq), b2);
    IntRoundTrip(d, p0, s.tpq);
    StandsSplit(d, p0 + 8, TracksBytes(s.tracks), b3);
    TracksRoundTrip(d, p0 + 8, s.tracks);
    var p2 := p0 + 8 + |TracksBytes(s.tracks)|;
    StandsSplit(d, p2, RowsBytes(s.timeSignatures), b4);
    RowsRoundTrip(d, p2, s.timeSignatures, SIGNATURE);
    var p3 := p2 + |RowsBytes(s.timeSignatures)|;
    StandsSplit(d, p3, RowsBytes(s.keySignatures), b5);
    RowsRoundTrip(d, p3, s.keySignatures, SIGNATURE);
    var p4 := p3 + |RowsBytes(s.keySignatures)|;
    StandsSplit(d, p4, RowsBytes(s.tempos), b6);
    RowsRoundTrip(d, p4, s.tempos, TEMPO);
    TextsRoundTrip(d, p4 + |RowsBytes(s.tempos)|, s.markers);
  }

  /** Equal canonical bytes mean equal scores, in every field; and no encoding is a prefix of another. */
  lemma CanonicalIsInjective(a: ScoreRecord, b: ScoreRecord, x: Bytes, y: Bytes)
    requires ScoreFits(a) && FieldsShaped(a) && ScoreFits(b) && FieldsShaped(b)
    requires ScoreBytes(a) + x == ScoreBytes(b) + y
    ensures a == b && x == y
  {
    hide ScoreBytes, ScoreFits, FieldsShaped, ReadScore;
    var d := ScoreBytes(a) + x;
    assert d[..|ScoreBytes(a)|] == ScoreBytes(a) && d[|ScoreBytes(a)|..] == x;
    assert d[..|ScoreBytes(b)|] == ScoreBytes(b) && d[|ScoreBytes(b)|..] == y;
    ScoreRoundTrip(d, 0, a);
    ScoreRoundTrip(d, 0, b);
  }
}
