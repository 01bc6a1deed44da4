/**
  The score-wide rows and the text of a score: tempos, signatures and markers are
  those of the file's meta events, in stable tick order, and every text range
  selects the normalized payload it was made from.
 */
module ScoreMetas {
  import opened Base
  import opened Smf
  import opened Wire
  import opened NoteColumns
  import opened ScoreTypes
  import opened TrackModel
  import opened TrackInvariants
  import opened Scores
  import opened ScoreEmission
  import opened ScoreGrammar
  import ScoreBounds
  import opened StableSort
  import opened Bits
  import Utf8

  // ----- The payloads of the meta events

  /** The payloads of the events that become rows, stamped with their ticks, as they stand in the file. */
  datatype MetaRows = MetaRows(
    tempos: seq<Timed<Bytes>>,
    timeSignatures: seq<Timed<Bytes>>,
    keySignatures: seq<Timed<Bytes>>,
    markers: seq<Timed<Bytes>>)

  const NO_METAS := MetaRows([], [], [], [])

  function Joined(a: MetaRows, b: MetaRows): MetaRows {
    MetaRows(a.tempos + b.tempos, a.timeSignatures + b.timeSignatures, a.keySignatures + b.keySignatures,
             a.markers + b.markers)
  }

  /** The row of one event; empty markers are no rows. */
  function MetaRowsBy(event: Event, time: u64): MetaRows {
    match event
    case Meta(metaType, payload) =>
      if metaType == 0x51 then NO_METAS.(tempos := [Timed(time, payload)])
      else if metaType == 0x58 then NO_METAS.(timeSignatures := [Timed(time, payload)])
      else if metaType == 0x59 then NO_METAS.(keySignatures := [Timed(time, payload)])
      else if metaType == 0x06 && payload != [] then NO_METAS.(markers := [Timed(time, payload)])
      else NO_METAS
    case _ => NO_METAS
  }

  /** The meta rows of one track at their absolute ticks, up to the End-of-Track where the grammar stops there. */
  function MetaRowsOf(grammar: Grammar, t: Trace, time: u64): MetaRows
    decreases t
  {
    if !t.Step? || time + t.head.delta > U64_MAX then NO_METAS
    else if grammar.StopsAtEndOfTrack() && IsEndOfTrack(t.head.event) then NO_METAS
    else Joined(MetaRowsBy(t.head.event, time + t.head.delta), MetaRowsOf(grammar, t.rest, time + t.head.delta))
  }

  /** The meta rows of a file, track after track. */
  function FileMetas(grammar: Grammar, c: Chunks): MetaRows
    decreases c
  {
    if c.Chunk? then Joined(MetaRowsOf(grammar, TraceOf(c.body, c.base), 0), FileMetas(grammar, c.rest)) else NO_METAS
  }

  /** The last track name before the track ends, normalized; empty if there is none. */
  function NameOf(grammar: Grammar, t: Trace, name: Bytes): Bytes
    decreases t
  {
    if !t.Step? || (grammar.StopsAtEndOfTrack() && IsEndOfTrack(t.head.event)) then name
    else
      NameOf(grammar, t.rest,
             if t.head.event.Meta? && t.head.event.metaType == 0x03 then Utf8.Normalize(t.head.event.payload) else name)
  }

  // ----- What rows say about payloads

  /** Microseconds per quarter note, in three bytes, most significant first. */
  predicate TempoSpelled(tempo: u32, payload: Bytes) {
    tempo < 0x100_0000 && payload == [tempo / 0x1_0000, tempo / 0x100 % 0x100, tempo % 0x100]
  }

  /** `d` halves to 1 in exactly `steps` steps. */
  predicate HalvesToOne(d: nat, steps: nat)
    decreases steps
  {
    if steps == 0 then d == 1 else d % 2 == 0 && HalvesToOne(d / 2, steps - 1)
  }

  /** The numerator, then how often the denominator halves; the other two bytes are not kept. */
  predicate SignatureSpelled(signature: TimeSignature, payload: Bytes) {
    |payload| == 4 && payload[0] == signature.numerator && HalvesToOne(signature.denominator, payload[1])
  }

  /** The key in two's complement, then the tonality. */
  predicate KeySpelled(signature: KeySignature, payload: Bytes) {
    payload == [if signature.key >= 0 then signature.key else 0x100 + signature.key, signature.tonality]
  }

  predicate Selected(textData: Bytes, r: TextRange, text: Bytes) {
    r.start + r.len <= |textData| && textData[r.start..r.start + r.len] == text
  }

  /** The range selects the payload, with its malformed parts replaced. */
  function Labels(textData: Bytes): (TextRange, Bytes) -> bool {
    (r: TextRange, payload: Bytes) => Selected(textData, r, Utf8.Normalize(payload))
  }

  const TEMPO: (u32, Bytes) -> bool := (tempo: u32, payload: Bytes) => TempoSpelled(tempo, payload)
  const SIGNATURE: (TimeSignature, Bytes) -> bool :=
    (signature: TimeSignature, payload: Bytes) => SignatureSpelled(signature, payload)
  const KEY: (KeySignature, Bytes) -> bool := (signature: KeySignature, payload: Bytes) => KeySpelled(signature, payload)

  /** Row by row: the same tick, and a value that says what the payload says. */
  ghost predicate Matched<T>(rows: seq<Timed<T>>, payloads: seq<Timed<Bytes>>, says: (T, Bytes) -> bool) {
    && |rows| == |payloads|
    && forall i :: 0 <= i < |rows| ==> rows[i].time == payloads[i].time && says(rows[i].value, payloads[i].value)
  }

  lemma MatchedAppend<T>(rows: seq<Timed<T>>, payloads: seq<Timed<Bytes>>, says: (T, Bytes) -> bool, time: u64, value: T, payload: Bytes)
    requires Matched(rows, payloads, says) && says(value, payload)
    ensures Matched(rows + [Timed(time, value)], payloads + [Timed(time, payload)], says)
  {}

  lemma SelectedLater(textData: Bytes, later: Bytes, r: TextRange, text: Bytes)
    requires textData <= later && Selected(textData, r, text)
    ensures Selected(later, r, text)
  {
    assert later[r.start..r.start + r.len] == textData[r.start..r.start + r.len];
  }

  lemma LabelsLater(textData: Bytes, later: Bytes, rows: seq<TickText>, payloads: seq<Timed<Bytes>>)
    requires textData <= later && Matched(rows, payloads, Labels(textData))
    ensures Matched(rows, payloads, Labels(later))
  {
    hide Selected, Utf8.Normalize;
    forall i | 0 <= i < |rows| ensures rows[i].time == payloads[i].time && Labels(later)(rows[i].value, payloads[i].value) {
      SelectedLater(textData, later, rows[i].value, Utf8.Normalize(payloads[i].value));
    }
  }

  lemma LowDigit(high: nat, low: u8)
    ensures (high * 0x100 + low) / 0x100 == high && (high * 0x100 + low) % 0x100 == low
  {}

  lemma DivideTwice(n: nat)
    ensures n / 0x1_0000 == n / 0x100 / 0x100
  {}

  lemma MetaTempoSpelled(payload: Bytes)
    requires |payload| == 3
    ensures TempoSpelled(MetaTempo(payload), payload)
  {
    var a: nat, b, c := payload[0], payload[1], payload[2];
    var tempo: nat := (a * 0x100 + b) * 0x100 + c;
    assert MetaTempo(payload) == tempo && tempo < 0x100_0000;
    LowDigit(a * 0x100 + b, c);
    LowDigit(a, b);
    DivideTwice(tempo);
    assert payload == [a, b, c];
  }

  /** Every tempo of three bytes is read back from them. */
  lemma TempoRoundTrip(v: u32)
    requires v < 0x100_0000
    ensures MetaTempo([v / 0x1_0000, v / 0x100 % 0x100, v % 0x100]) == v
  {
    DivideTwice(v);
  }

  lemma {:induction false} ShiftedHalves(n: nat)
    ensures HalvesToOne(ShiftedOne(n), n)
  {
    if n > 0 {
      ShiftedHalves(n - 1);
    }
  }

  lemma MetaSignatureSpelled(payload: Bytes)
    requires |payload| == 4 && payload[1] < 64
    ensures SignatureSpelled(MetaTimeSignature(payload), payload)
  {
    hide HalvesToOne, ShiftedOne;
    ShiftedHalves(payload[1]);
  }

  lemma MetaKeySpelled(payload: Bytes)
    requires |payload| == 2
    ensures KeySpelled(MetaKeySignature(payload), payload)
  {}

  lemma PushedSelected(policy: Policy, s: Score, text: Bytes, offset: nat, end: nat)
    requires PushText(policy, s, text, offset, end).Ok?
    ensures var (s', r) := PushText(policy, s, text, offset, end).value;
            && s' == s.(textData := s'.textData) && s.textData <= s'.textData
            && Selected(s'.textData, r, Utf8.Normalize(text))
            && (Utf8.Valid(s.textData) ==> Utf8.Valid(s'.textData))
  {
    hide Utf8.Normalize, Utf8.Valid;
    Utf8.NormalizeValid(text);
    if Utf8.Valid(s.textData) {
      Utf8.ValidConcat(s.textData, Utf8.Normalize(text));
    }
  }

  // ----- One track

  /** The score-wide columns say exactly what these payloads say, and the text so far is well formed. */
  ghost predicate Collected(s: Score, metas: MetaRows) {
    && Matched(s.tempos, metas.tempos, TEMPO) && Matched(s.timeSignatures, metas.timeSignatures, SIGNATURE)
    && Matched(s.keySignatures, metas.keySignatures, KEY) && Matched(s.markers, metas.markers, Labels(s.textData))
    && Utf8.Valid(s.textData)
  }

  lemma CollectedText(s: Score, s': Score, metas: MetaRows)
    requires Collected(s, metas) && s.textData <= s'.textData && Utf8.Valid(s'.textData)
    requires s'.tempos == s.tempos && s'.timeSignatures == s.timeSignatures && s'.keySignatures == s.keySignatures
    requires s'.markers == s.markers
    ensures Collected(s', metas)
  {
    hide Matched, Utf8.Valid;
    LabelsLater(s.textData, s'.textData, s.markers, metas.markers);
  }

  lemma MarkerCollected(s: Score, pushed: Score, r: TextRange, time: u64, payload: Bytes, metas: MetaRows)
    requires Collected(s, metas) && pushed == s.(textData := pushed.textData) && s.textData <= pushed.textData
    requires Utf8.Valid(pushed.textData) && Selected(pushed.textData, r, Utf8.Normalize(payload))
    ensures Collected(pushed.(markers := s.markers + [Timed(time, r)]), Joined(metas, NO_METAS.(markers := [Timed(time, payload)])))
  {
    hide Matched, Utf8.Valid, Selected, Utf8.Normalize;
    LabelsLater(s.textData, pushed.textData, s.markers, metas.markers);
    MatchedAppend(s.markers, metas.markers, Labels(pushed.textData), time, r, payload);
    NothingJoined(metas);
  }

  lemma NothingJoined(metas: MetaRows)
    ensures metas.tempos + [] == metas.tempos && metas.timeSignatures + [] == metas.timeSignatures
    ensures metas.keySignatures + [] == metas.keySignatures && metas.markers + [] == metas.markers
  {}

  /** A tempo or signature event of the right shape adds its row. */
  lemma TimingCollected(s: Score, metaType: u8, payload: Bytes, time: u64, metas: MetaRows)
    requires Collected(s, metas) && metaType in {0x51, 0x58, 0x59} && ValidateMeta(metaType, payload, 0).Ok?
    ensures Collected(if metaType == 0x51 then s.(tempos := s.tempos + [Timed(time, MetaTempo(payload))])
                      else if metaType == 0x58 then s.(timeSignatures := s.timeSignatures + [Timed(time, MetaTimeSignature(payload))])
                      else s.(keySignatures := s.keySignatures + [Timed(time, MetaKeySignature(payload))]),
                      Joined(metas, MetaRowsBy(Event.Meta(metaType, payload), time)))
  {
    hide Matched, Utf8.Valid, TempoSpelled, SignatureSpelled, KeySpelled, MetaTempo, MetaTimeSignature, MetaKeySignature;
    NothingJoined(metas);
    if metaType == 0x51 {
      MetaTempoSpelled(payload);
      MatchedAppend(s.tempos, metas.tempos, TEMPO, time, MetaTempo(payload), payload);
    } else if metaType == 0x58 {
      MetaSignatureSpelled(payload);
      MatchedAppend(s.timeSignatures, metas.timeSignatures, SIGNATURE, time, MetaTimeSignature(payload), payload);
    } else {
      MetaKeySpelled(payload);
      MatchedAppend(s.keySignatures, metas.keySignatures, KEY, time, MetaKeySignature(payload), payload);
    }
  }

  lemma JoinedNothing(metas: MetaRows)
    ensures Joined(metas, NO_METAS) == metas && Joined(NO_METAS, metas) == metas
  {}

  lemma JoinedAssociates(a: MetaRows, b: MetaRows, c: MetaRows)
    ensures Joined(a, Joined(b, c)) == Joined(Joined(a, b), c)
  {}

  lemma ApplyMetaCollects(policy: Policy, run: Run, metaType: u8, payload: Bytes, offset: nat, end: nat, metas: MetaRows)
    requires Valid(run.model) && Collected(run.score, metas)
    requires ApplyMeta(policy, run, metaType, payload, offset, end).Ok?
    ensures var s' := ApplyMeta(policy, run, metaType, payload, offset, end).value.score;
            && Collected(s', Joined(metas, MetaRowsBy(Event.Meta(metaType, payload), run.time)))
            && run.score.textData <= s'.textData
  {
    hide Valid, AddLyric, PushText, Collected, Joined, MetaTempo, MetaTimeSignature, MetaKeySignature, Utf8.Normalize, Utf8.Valid;
    var s := run.score;
    JoinedNothing(metas);
    CollectedValid(s, metas);
    if metaType in {0x03, 0x05, 0x06} && PushText(policy, s, payload, offset, end).Ok? {
      PushedSelected(policy, s, payload, offset, end);
      var (s', r) := PushText(policy, s, payload, offset, end).value;
      CollectedText(s, s', metas);
      MarkerCollected(s, s', r, run.time, payload, metas);
    }
    if metaType in {0x51, 0x58, 0x59} {
      TimingCollected(s, metaType, payload, run.time, metas);
    }
  }

  lemma CollectedValid(s: Score, metas: MetaRows)
    requires Collected(s, metas)
    ensures Utf8.Valid(s.textData)
  {}

  lemma PerformCollects(policy: Policy, run: Run, e: TimedEvent, metas: MetaRows)
    requires Valid(run.model) && Collected(run.score, metas) && Perform(policy, run, e).Ok?
    ensures var s' := Perform(policy, run, e).value.score;
            && Collected(s', Joined(metas, MetaRowsBy(e.event, run.time))) && run.score.textData <= s'.textData
  {
    hide Valid, Apply, Collected, Joined, ApplyMeta;
    JoinedNothing(metas);
    if e.event.Meta? {
      ApplyMetaCollects(policy, run.(events := run.events + 1), e.event.metaType, e.event.payload, e.offset, e.end, metas);
    }
  }

  /** A track adds exactly its meta rows. */
  lemma {:induction false} TrackCollects(policy: Policy, grammar: Grammar, t: Trace, run: Run, trackEnd: nat, metas: MetaRows)
    requires Valid(run.model) && Collected(run.score, metas) && RunTrace(policy, grammar, t, run, trackEnd).Ok?
    ensures var s' := RunTrace(policy, grammar, t, run, trackEnd).value.score;
            && Collected(s', Joined(metas, MetaRowsOf(grammar, t, run.time))) && run.score.textData <= s'.textData
    decreases t
  {
    hide Valid, Perform, Collected, Joined, MetaRowsBy;
    JoinedNothing(metas);
    if t.Step? && !(grammar.StopsAtEndOfTrack() && IsEndOfTrack(t.head.event)) {
      var now := run.(time := run.time + t.head.delta);
      PerformValid(policy, now, t.head);
      PerformTime(policy, now, t.head);
      PerformCollects(policy, now, t.head, metas);
      var row := MetaRowsBy(t.head.event, now.time);
      TrackCollects(policy, grammar, t.rest, Perform(policy, now, t.head).value, trackEnd, Joined(metas, row));
      JoinedAssociates(metas, row, MetaRowsOf(grammar, t.rest, now.time));
    }
  }

  lemma PerformTime(policy: Policy, run: Run, e: TimedEvent)
    requires Valid(run.model)
    ensures Perform(policy, run, e).Ok? ==> Perform(policy, run, e).value.time == run.time
  {
    hide Valid, Apply, AddLyric, PushText;
  }

  lemma PerformName(policy: Policy, run: Run, e: TimedEvent, name: Bytes)
    requires Valid(run.model) && Selected(run.score.textData, run.name, name) && Perform(policy, run, e).Ok?
    ensures var next := Perform(policy, run, e).value;
            Selected(next.score.textData, next.name,
                     if e.event.Meta? && e.event.metaType == 0x03 then Utf8.Normalize(e.event.payload) else name)
  {
    hide Valid, Apply, AddLyric, PushText, Selected, Utf8.Normalize;
    if e.event.Meta? && PushText(policy, run.score, e.event.payload, e.offset, e.end).Ok? {
      PushedSelected(policy, run.score, e.event.payload, e.offset, e.end);
      SelectedLater(run.score.textData, PushText(policy, run.score, e.event.payload, e.offset, e.end).value.0.textData, run.name, name);
    }
  }

  /** A track's name range selects its last track-name event. */
  lemma {:induction false} TrackNamed(policy: Policy, grammar: Grammar, t: Trace, run: Run, trackEnd: nat, name: Bytes)
    requires Valid(run.model) && Selected(run.score.textData, run.name, name) && RunTrace(policy, grammar, t, run, trackEnd).Ok?
    ensures var run' := RunTrace(policy, grammar, t, run, trackEnd).value;
            Selected(run'.score.textData, run'.name, NameOf(grammar, t, name))
    decreases t
  {
    hide Valid, Perform, Selected, Utf8.Normalize;
    if t.Step? && !(grammar.StopsAtEndOfTrack() && IsEndOfTrack(t.head.event)) {
      var now := run.(time := run.time + t.head.delta);
      PerformValid(policy, now, t.head);
      PerformName(policy, now, t.head, name);
      TrackNamed(policy, grammar, t.rest, Perform(policy, now, t.head).value, trackEnd,
                 if t.head.event.Meta? && t.head.event.metaType == 0x03 then Utf8.Normalize(t.head.event.payload) else name);
    }
  }

  // ----- The file

  lemma ScoreTrackCollects(policy: Policy, grammar: Grammar, body: Bytes, base: nat, sourceTrack: nat, f: FileRun, metas: MetaRows)
    requires Collected(f.score, metas) && |f.score.segments| == |f.score.tracks|
    requires ScoreTrack(policy, grammar, body, base, sourceTrack, f).Ok?
    ensures var s' := ScoreTrack(policy, grammar, body, base, sourceTrack, f).value.score;
            && Collected(s', Joined(metas, MetaRowsOf(grammar, TraceOf(body, base), 0)))
            && |s'.segments| == |s'.tracks| && f.score.textData <= s'.textData
  {
    hide Valid, RunTrace, EmitFrom, TraceOf, Collected, Joined, GroupsFrom, Emitted;
    var t, start := TraceOf(body, base), TrackStart(f);
    EmptyModelValid();
    TrackCollects(policy, grammar, t, start, base + |body|, metas);
    var run := RunTrace(policy, grammar, t, start, base + |body|).value;
    SegmentsKept(policy, grammar, t, start, base + |body|);
    EmitFromEmits(run.model, 0, sourceTrack, run.name, run.score, base + |body|);
    var s' := EmitFrom(run.model, 0, sourceTrack, run.name, run.score, base + |body|).value;
    CollectedValid(run.score, Joined(metas, MetaRowsOf(grammar, t, 0)));
    CollectedText(run.score, s', Joined(metas, MetaRowsOf(grammar, t, 0)));
  }

  lemma SegmentsKept(policy: Policy, grammar: Grammar, t: Trace, run: Run, trackEnd: nat)
    requires Valid(run.model) && RunTrace(policy, grammar, t, run, trackEnd).Ok?
    ensures var s := RunTrace(policy, grammar, t, run, trackEnd).value.score;
            s.tracks == run.score.tracks && s.segments == run.score.segments
  {
    hide Valid, RunTrace;
    ScoreBounds.RunKeepsTracks(policy, grammar, t, run, trackEnd);
  }

  lemma {:induction false} ChunksCollect(policy: Policy, grammar: Grammar, c: Chunks, sourceTrack: nat, f: FileRun, metas: MetaRows)
    requires Collected(f.score, metas) && |f.score.segments| == |f.score.tracks|
    requires ScoreChunks(policy, grammar, c, sourceTrack, f).Ok?
    ensures Collected(ScoreChunks(policy, grammar, c, sourceTrack, f).value, Joined(metas, FileMetas(grammar, c)))
    decreases c
  {
    hide ScoreTrack, Joined, TraceOf, Utf8.Valid, Matched;
    JoinedNothing(metas);
    if c.Chunk? {
      var rows := MetaRowsOf(grammar, TraceOf(c.body, c.base), 0);
      ScoreTrackCollects(policy, grammar, c.body, c.base, sourceTrack, f, metas);
      ChunksCollect(policy, grammar, c.rest, sourceTrack + 1,
                    ScoreTrack(policy, grammar, c.body, c.base, sourceTrack, f).value, Joined(metas, rows));
      JoinedAssociates(metas, rows, FileMetas(grammar, c.rest));
    }
  }

  lemma {:induction false} InsertMatches<T>(rows: seq<Timed<T>>, row: Timed<T>, payloads: seq<Timed<Bytes>>, payload: Timed<Bytes>,
                                            says: (T, Bytes) -> bool)
    requires Matched(rows, payloads, says) && row.time == payload.time && says(row.value, payload.value)
    ensures Matched(Insert(rows, row), Insert(payloads, payload), says)
    decreases |rows|
  {
    var n := |rows|;
    if n > 0 && rows[n - 1].time > row.time {
      InsertMatches(rows[..n - 1], row, payloads[..n - 1], payload, says);
    }
  }

  /** Sorting rows and sorting their payloads agree. */
  lemma {:induction false} SortMatches<T>(rows: seq<Timed<T>>, payloads: seq<Timed<Bytes>>, says: (T, Bytes) -> bool)
    requires Matched(rows, payloads, says)
    ensures Matched(Sort(rows), Sort(payloads), says)
    decreases |rows|
  {
    hide Insert;
    var n := |rows|;
    if n > 0 {
      SortMatches(rows[..n - 1], payloads[..n - 1], says);
      InsertMatches(Sort(rows[..n - 1]), rows[n - 1], Sort(payloads[..n - 1]), payloads[n - 1], says);
    }
  }

  function SortedMetas(metas: MetaRows): MetaRows {
    MetaRows(Sort(metas.tempos), Sort(metas.timeSignatures), Sort(metas.keySignatures), Sort(metas.markers))
  }

  lemma SortCollected(s: Score, metas: MetaRows)
    requires Collected(s, metas)
    ensures Collected(SortGlobals(s), SortedMetas(metas))
  {
    hide Matched, Sort, Utf8.Valid;
    SortMatches(s.tempos, metas.tempos, TEMPO);
    SortMatches(s.timeSignatures, metas.timeSignatures, SIGNATURE);
    SortMatches(s.keySignatures, metas.keySignatures, KEY);
    SortMatches(s.markers, metas.markers, Labels(s.textData));
  }

  /**
    The score-wide columns of every returned score say what the file's meta
    events say in their own bytes, ordered by tick and, within a tick, by track
    and position: a tempo's three bytes most significant first, a denominator
    that halves to 1 as often as its byte says, a key in two's complement, a
    marker's range selecting its normalized text. All text is well-formed UTF-8.
   */
  lemma MetasOfFile(policy: Policy, grammar: Grammar, data: Bytes)
    requires ScoreFile(policy, grammar, data).Ok?
    ensures HeaderAt(data).Ok?
    ensures var s, metas := ScoreFile(policy, grammar, data).value, SortedMetas(FileMetas(grammar, ChunksOf(data)));
            && Matched(s.tempos, metas.tempos, TEMPO)
            && Matched(s.timeSignatures, metas.timeSignatures, SIGNATURE)
            && Matched(s.keySignatures, metas.keySignatures, KEY)
            && Matched(s.markers, metas.markers, Labels(s.textData))
            && Utf8.Valid(s.textData)
  {
    hide HeaderAt, ScoreChunks, ChunksFrom, FileMetas, Joined, Sort, Utf8.Valid, Matched;
    var header := HeaderAt(data).value;
    var f := FileRun(EmptyScore(header.value), 0, 0);
    NothingCollected(header.value);
    ChunksCollect(policy, grammar, ChunksOf(data), 0, f, NO_METAS);
    JoinedNothing(FileMetas(grammar, ChunksOf(data)));
    SortCollected(ScoreChunks(policy, grammar, ChunksOf(data), 0, f).value, FileMetas(grammar, ChunksOf(data)));
  }

  lemma NothingCollected(header: Header)
    ensures Collected(EmptyScore(header), NO_METAS)
  {}

  // ----- Files with one track

  ghost predicate SortedFrom<T>(s: seq<Timed<T>>, from: nat) {
    Sorted(s) && forall i :: 0 <= i < |s| ==> from <= s[i].time
  }

  ghost predicate AllSorted(metas: MetaRows, from: nat) {
    && SortedFrom(metas.tempos, from) && SortedFrom(metas.timeSignatures, from)
    && SortedFrom(metas.keySignatures, from) && SortedFrom(metas.markers, from)
  }

  lemma SortedPrepend<T>(row: seq<Timed<T>>, s: seq<Timed<T>>, from: nat, time: u64)
    requires OneRowAt(row, time) && from <= time && SortedFrom(s, time)
    ensures SortedFrom(row + s, from)
  {}

  lemma {:induction false} TrackMetasSorted(grammar: Grammar, t: Trace, time: u64)
    ensures AllSorted(MetaRowsOf(grammar, t, time), time)
    decreases t
  {
    hide MetaRowsBy, SortedFrom, OneRowAt;
    NothingSorted(time);
    if t.Step? && time + t.head.delta <= U64_MAX {
      var now := time + t.head.delta;
      RowAtTime(t.head.event, now);
      TrackMetasSorted(grammar, t.rest, now);
      var row, rest := MetaRowsBy(t.head.event, now), MetaRowsOf(grammar, t.rest, now);
      SortedPrepend(row.tempos, rest.tempos, time, now);
      SortedPrepend(row.timeSignatures, rest.timeSignatures, time, now);
      SortedPrepend(row.keySignatures, rest.keySignatures, time, now);
      SortedPrepend(row.markers, rest.markers, time, now);
    }
  }

  predicate OneRowAt<T>(s: seq<Timed<T>>, time: u64) {
    s == [] || (|s| == 1 && s[0].time == time)
  }

  lemma RowAtTime(event: Event, time: u64)
    ensures var row := MetaRowsBy(event, time);
            && OneRowAt(row.tempos, time) && OneRowAt(row.timeSignatures, time)
            && OneRowAt(row.keySignatures, time) && OneRowAt(row.markers, time)
  {}

  lemma NothingSorted(time: u64)
    ensures AllSorted(NO_METAS, time)
  {}

  /** In a file with one track the sort changes nothing: the rows are the track's, in reading order. */
  lemma OneTrackStaysInOrder(policy: Policy, grammar: Grammar, data: Bytes)
    requires ScoreFile(policy, grammar, data).Ok?
    ensures HeaderAt(data).Ok?
    ensures HeaderAt(data).value.value.trackCount <= 1 ==>
              var s, metas := ScoreFile(policy, grammar, data).value, FileMetas(grammar, ChunksOf(data));
              && Matched(s.tempos, metas.tempos, TEMPO)
              && Matched(s.timeSignatures, metas.timeSignatures, SIGNATURE)
              && Matched(s.keySignatures, metas.keySignatures, KEY)
              && Matched(s.markers, metas.markers, Labels(s.textData))
  {
    hide HeaderAt, ScoreFile, Utf8.Valid, Matched, MetaRowsOf, FrameAt, TraceOf;
    MetasOfFile(policy, grammar, data);
    var c := ChunksOf(data);
    if HeaderAt(data).value.value.trackCount <= 1 {
      if c.Chunk? {
        TrackMetasSorted(grammar, TraceOf(c.body, c.base), 0);
        JoinedNothing(MetaRowsOf(grammar, TraceOf(c.body, c.base), 0));
        assert FileMetas(grammar, c.rest) == NO_METAS;
      }
      var metas := FileMetas(grammar, c);
      SortKeepsSorted(metas.tempos);
      SortKeepsSorted(metas.timeSignatures);
      SortKeepsSorted(metas.keySignatures);
      SortKeepsSorted(metas.markers);
    }
  }
}
