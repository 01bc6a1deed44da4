/** `parse_smf`: the owned event arena, proved to hold exactly the decoded events. */
module EventArena {
  import opened Base
  import opened Smf
  import opened Wire
  import opened Cursors
  import opened Scan

  datatype TrackRange = TrackRange(start: u32, len: u32)

  datatype EventRecord = EventRecord(
    deltaTicks: u32,
    payloadStart: u32,
    payloadLen: u32,
    data: (u8, u8),
    status: u8,
    auxiliary: u8)
  {
    predicate IsChannel() {
      0x80 <= status < 0xF0
    }
  }

  /** The value of an `OwnedSmf`. */
  datatype Arena = Arena(
    header: Header,
    tracks: seq<TrackRange>,
    events: seq<EventRecord>,
    payloads: Bytes,
    bytesConsumed: nat,
    trailingBytes: nat)
  {
    /** Checked slicing, as `slice::get(start..end)`. */
    function TrackEvents(track: nat): Option<seq<EventRecord>> {
      if track < |tracks| && tracks[track].start + tracks[track].len <= |events| then
        Some(events[tracks[track].start..tracks[track].start + tracks[track].len])
      else None
    }

    function EventData(index: nat): Option<Bytes> {
      if index < |events| then DataOf(payloads, events[index]) else None
    }
  }

  function DataOf(payloads: Bytes, r: EventRecord): Option<Bytes> {
    if r.IsChannel() then
      if r.payloadLen <= 2 then Some([r.data.0, r.data.1][..r.payloadLen]) else None
    else if r.payloadStart + r.payloadLen <= |payloads| then
      Some(payloads[r.payloadStart..r.payloadStart + r.payloadLen])
    else None
  }

  // ----- What the building pass computes

  function DataLength(status: ChannelStatus): nat {
    if OneDataByte(status) then 1 else 2
  }

  /** Appends a meta or system event; its payload offset must fit a `u32`. */
  function PushVariable(a: Arena, delta: u32, status: u8, auxiliary: u8, payload: Bytes, end: nat)
    : Result<Arena, ParseError>
  {
    if |a.payloads| > U32_MAX || |payload| > U32_MAX then Err(At(end, SizeOverflow))
    else
      Ok(a.(payloads := a.payloads + payload,
            events := a.events + [EventRecord(delta, |a.payloads|, |payload|, (0, 0), status, auxiliary)]))
  }

  function BuildEvent(a: Arena, delta: u32, event: Event, end: nat): Result<Arena, ParseError> {
    match event
    case Channel(status, first, second) =>
      Ok(a.(events := a.events + [EventRecord(delta, 0, DataLength(status), (first, second), status, 0)]))
    case Meta(metaType, payload) => PushVariable(a, delta, 0xFF, metaType, payload, end)
    case SysEx(status, payload) => PushVariable(a, delta, status, 0, payload, end)
  }

  function BuildTrace(t: Trace, a: Arena): Result<Arena, ParseError>
  {
    match t
    case End => Ok(a)
    case Bad(_, e) => Err(e)
    case Step(head, rest) =>
      var a' :- BuildEvent(a, head.delta, head.event, head.end);
      BuildTrace(rest, a')
  }

  function BuildTrack(body: Bytes, base: nat, a: Arena): Result<Arena, ParseError> {
    if |a.events| > U32_MAX then Err(At(base, SizeOverflow))
    else
      var a' :- BuildTrace(TraceOf(body, base), a);
      if |a'.events| > U32_MAX || |a'.events| < |a.events| then Err(At(base + |body|, SizeOverflow))
      else Ok(a'.(tracks := a'.tracks + [TrackRange(|a.events|, |a'.events| - |a.events|)]))
  }

  function BuildChunks(c: Chunks, a: Arena): Result<Arena, ParseError> {
    match c
    case NoMore(_, _) => Ok(a)
    case BadChunk(_, e) => Err(e)
    case Chunk(_, body, base, rest) =>
      var a' :- BuildTrack(body, base, a);
      BuildChunks(rest, a')
  }

  /** What `parse_smf` returns on every input: the scan's error, or the second pass over the same chunks. */
  function ParseFile(data: Bytes): Result<Arena, ParseError> {
    var s :- ScanFile(data);
    BuildChunks(ChunksOf(data), EmptyArena(s))
  }

  function EmptyArena(s: Summary): Arena {
    Arena(s.header, [], [], [], s.bytesConsumed, s.trailingBytes)
  }

  // ----- The arena holds the decoded events

  function StatusOf(event: Event): u8 {
    match event
    case Channel(status, _, _) => status
    case Meta(_, _) => 0xFF
    case SysEx(status, _) => status
  }

  function BytesOf(event: Event): Bytes {
    match event
    case Channel(status, first, second) => if 0xC0 <= status <= 0xDF then [first] else [first, second]
    case Meta(_, payload) => payload
    case SysEx(_, payload) => payload
  }

  /** Everything the accessors say about a record is what was decoded. */
  predicate Shows(payloads: Bytes, r: EventRecord, e: TimedEvent) {
    && r.deltaTicks == e.delta
    && r.status == StatusOf(e.event)
    && r.auxiliary == (if e.event.Meta? then e.event.metaType else 0)
    && DataOf(payloads, r) == Some(BytesOf(e.event))
  }

  /** `a'` is `a` followed by records for exactly the events `es`. */
  ghost predicate Extends(a: Arena, a': Arena, es: seq<TimedEvent>) {
    && a'.(events := a.events, payloads := a.payloads) == a
    && a.events <= a'.events && |a'.events| == |a.events| + |es|
    && a.payloads <= a'.payloads
    && forall j :: 0 <= j < |es| ==> Shows(a'.payloads, a'.events[|a.events| + j], es[j])
  }

  lemma ExtendsTransitive(a: Arena, b: Arena, c: Arena, es: seq<TimedEvent>, fs: seq<TimedEvent>)
    requires Extends(a, b, es) && Extends(b, c, fs)
    ensures Extends(a, c, es + fs)
  {
    forall j | 0 <= j < |es + fs| ensures Shows(c.payloads, c.events[|a.events| + j], (es + fs)[j]) {
      if j < |es| {
        assert Shows(b.payloads, b.events[|a.events| + j], es[j]);
        var r := b.events[|a.events| + j];
        if !r.IsChannel() {
          assert c.payloads[r.payloadStart..r.payloadStart + r.payloadLen]
              == b.payloads[r.payloadStart..r.payloadStart + r.payloadLen];
        }
      } else {
        assert Shows(c.payloads, c.events[|b.events| + (j - |es|)], fs[j - |es|]);
      }
    }
  }

  lemma BuildEventExtends(a: Arena, e: TimedEvent)
    requires BuildEvent(a, e.delta, e.event, e.end).Ok?
    ensures Extends(a, BuildEvent(a, e.delta, e.event, e.end).value, [e])
  {
    var b := BuildEvent(a, e.delta, e.event, e.end).value;
    if e.event.Channel? {
      var data := [e.event.first, e.event.second];
      assert data[..1] == [e.event.first] && data[..2] == data;
    } else {
      assert b.payloads[|a.payloads|..|a.payloads| + |e.event.payload|] == e.event.payload;
    }
    assert Shows(b.payloads, b.events[|a.events|], e);
  }

  lemma {:induction false} BuildTraceExtends(t: Trace, a: Arena)
    requires BuildTrace(t, a).Ok?
    ensures Extends(a, BuildTrace(t, a).value, EventsOf(t))
  {
    if t.Step? {
      var b := BuildEvent(a, t.head.delta, t.head.event, t.head.end).value;
      BuildEventExtends(a, t.head);
      BuildTraceExtends(t.rest, b);
      ExtendsTransitive(a, b, BuildTrace(t, a).value, [t.head], EventsOf(t.rest));
    }
  }

  // ----- Ranges tile their arenas

  /** Bytes of the payload arena that the first `n` records use. */
  function PayloadTotal(records: seq<EventRecord>, n: nat): nat
    requires n <= |records|
  {
    if n == 0 then 0
    else PayloadTotal(records, n - 1) + if records[n - 1].IsChannel() then 0 else records[n - 1].payloadLen
  }

  /** Events that the first `n` tracks select. */
  function EventTotal(ranges: seq<TrackRange>, n: nat): nat
    requires n <= |ranges|
  {
    if n == 0 then 0 else EventTotal(ranges, n - 1) + ranges[n - 1].len
  }

  /** Variable payloads lie end to end, in event order, and fill the payload arena. */
  ghost predicate PayloadsTiled(a: Arena) {
    && PayloadTotal(a.events, |a.events|) == |a.payloads|
    && forall i :: 0 <= i < |a.events| && !a.events[i].IsChannel() ==>
         a.events[i].payloadStart == PayloadTotal(a.events, i)
  }

  /** Track ranges lie end to end, in track order, and fill the event arena. */
  ghost predicate TracksTiled(a: Arena) {
    && EventTotal(a.tracks, |a.tracks|) == |a.events|
    && forall i :: 0 <= i < |a.tracks| ==> a.tracks[i].start == EventTotal(a.tracks, i)
  }

  lemma {:induction false} PayloadTotalAppend(records: seq<EventRecord>, r: EventRecord, n: nat)
    requires n <= |records|
    ensures PayloadTotal(records + [r], n) == PayloadTotal(records, n)
  {
    if n > 0 {
      PayloadTotalAppend(records, r, n - 1);
    }
  }

  lemma {:induction false} EventTotalAppend(ranges: seq<TrackRange>, r: TrackRange, n: nat)
    requires n <= |ranges|
    ensures EventTotal(ranges + [r], n) == EventTotal(ranges, n)
  {
    if n > 0 {
      EventTotalAppend(ranges, r, n - 1);
    }
  }

  lemma UnfoldPayloadTotal(records: seq<EventRecord>, n: nat)
    requires 0 < n <= |records|
    ensures PayloadTotal(records, n)
         == PayloadTotal(records, n - 1) + if records[n - 1].IsChannel() then 0 else records[n - 1].payloadLen
  {}

  /** A record appended behind the payloads so far keeps the tiling. */
  lemma PayloadsTiledAppend(a: Arena, r: EventRecord, payload: Bytes)
    requires PayloadsTiled(a)
    requires if r.IsChannel() then payload == [] else r.payloadStart == |a.payloads| && r.payloadLen == |payload|
    ensures PayloadsTiled(a.(events := a.events + [r], payloads := a.payloads + payload))
  {
    var events, n := a.events + [r], |a.events|;
    UnfoldPayloadTotal(events, n + 1);
    hide PayloadTotal;
    PayloadTotalAppend(a.events, r, n);
    forall i | 0 <= i < |events| && !events[i].IsChannel() ensures events[i].payloadStart == PayloadTotal(events, i) {
      PayloadTotalAppend(a.events, r, i);
    }
  }

  lemma TracksTiledAppend(ranges: seq<TrackRange>, r: TrackRange, total: nat)
    requires EventTotal(ranges, |ranges|) == total && forall i :: 0 <= i < |ranges| ==> ranges[i].start == EventTotal(ranges, i)
    requires r.start == total
    ensures var more := ranges + [r];
            && EventTotal(more, |more|) == total + r.len
            && forall i :: 0 <= i < |more| ==> more[i].start == EventTotal(more, i)
  {
    var more, n := ranges + [r], |ranges|;
    EventTotalAppend(ranges, r, n);
    assert EventTotal(more, n + 1) == EventTotal(more, n) + r.len;
    hide EventTotal;
    forall i | 0 <= i < |more| ensures more[i].start == EventTotal(more, i) {
      EventTotalAppend(ranges, r, i);
    }
  }

  lemma BuildEventTiles(a: Arena, e: TimedEvent)
    requires PayloadsTiled(a) && BuildEvent(a, e.delta, e.event, e.end).Ok?
    ensures PayloadsTiled(BuildEvent(a, e.delta, e.event, e.end).value)
  {
    hide PayloadsTiled;
    var b := BuildEvent(a, e.delta, e.event, e.end).value;
    PayloadsTiledAppend(a, b.events[|a.events|], PayloadOf(e.event));
    assert a.payloads + [] == a.payloads;
  }

  lemma {:induction false} BuildTraceTiles(t: Trace, a: Arena)
    requires PayloadsTiled(a) && BuildTrace(t, a).Ok?
    ensures PayloadsTiled(BuildTrace(t, a).value)
  {
    if t.Step? {
      BuildEventTiles(a, t.head);
      BuildTraceTiles(t.rest, BuildEvent(a, t.head.delta, t.head.event, t.head.end).value);
    }
  }

  lemma BuildTrackTiles(body: Bytes, base: nat, a: Arena)
    requires PayloadsTiled(a) && TracksTiled(a) && BuildTrack(body, base, a).Ok?
    ensures var b := BuildTrack(body, base, a).value; PayloadsTiled(b) && TracksTiled(b)
  {
    hide BuildTrace, TraceOf, PayloadTotal, EventTotal;
    var b := BuildTrack(body, base, a).value;
    BuildTraceTiles(TraceOf(body, base), a);
    BuildTraceExtends(TraceOf(body, base), a);
    TracksTiledAppend(a.tracks, b.tracks[|a.tracks|], |a.events|);
  }

  /** Each track's range selects records for exactly that chunk's events. */
  ghost predicate TracksShow(a: Arena, traces: seq<seq<TimedEvent>>) {
    && |a.tracks| == |traces|
    && forall t :: 0 <= t < |traces| ==> TrackShows(a, t, traces[t])
  }

  ghost predicate TrackShows(a: Arena, t: nat, es: seq<TimedEvent>)
    requires t < |a.tracks|
  {
    var start := a.tracks[t].start;
    && a.TrackEvents(t).Some?
    && a.tracks[t].len == |es|
    && forall j :: 0 <= j < |es| ==> start + j < |a.events| && Shows(a.payloads, a.events[start + j], es[j])
  }

  /** The decoded events of each chunk, in file order. */
  function FileEvents(c: Chunks): seq<seq<TimedEvent>> {
    if c.Chunk? then [EventsOf(TraceOf(c.body, c.base))] + FileEvents(c.rest) else []
  }

  lemma TrackShowsExtends(a: Arena, b: Arena, t: nat, es: seq<TimedEvent>, fs: seq<TimedEvent>)
    requires t < |a.tracks| && TrackShows(a, t, es) && Extends(a, b, fs)
    ensures TrackShows(b, t, es)
  {
    var start := a.tracks[t].start;
    forall j | 0 <= j < |es| ensures Shows(b.payloads, b.events[start + j], es[j]) {
      var r := a.events[start + j];
      assert b.events[start + j] == r && Shows(a.payloads, r, es[j]);
      if !r.IsChannel() {
        assert b.payloads[r.payloadStart..r.payloadStart + r.payloadLen]
            == a.payloads[r.payloadStart..r.payloadStart + r.payloadLen];
      }
    }
  }

  lemma TracksShowAppend(a: Arena, b: Arena, traces: seq<seq<TimedEvent>>, es: seq<TimedEvent>)
    requires TracksShow(a, traces) && Extends(a, b, es) && |b.events| <= U32_MAX
    ensures TracksShow(b.(tracks := b.tracks + [TrackRange(|a.events|, |es|)]), traces + [es])
  {
    hide Shows;
    var c := b.(tracks := b.tracks + [TrackRange(|a.events|, |es|)]);
    forall t | 0 <= t < |traces| ensures TrackShows(c, t, (traces + [es])[t]) {
      TrackShowsExtends(a, b, t, traces[t], es);
      assert TrackShows(b, t, traces[t]) && c.tracks[t] == b.tracks[t];
    }
    assert TrackShows(c, |traces|, es);
  }

  lemma BuildTrackShows(body: Bytes, base: nat, a: Arena, traces: seq<seq<TimedEvent>>)
    requires TracksShow(a, traces) && BuildTrack(body, base, a).Ok?
    ensures TracksShow(BuildTrack(body, base, a).value, traces + [EventsOf(TraceOf(body, base))])
  {
    hide TracksShow, TraceOf, EventsOf;
    BuildTraceExtends(TraceOf(body, base), a);
    TracksShowAppend(a, BuildTrace(TraceOf(body, base), a).value, traces, EventsOf(TraceOf(body, base)));
  }

  lemma {:induction false} BuildChunksExact(c: Chunks, a: Arena, traces: seq<seq<TimedEvent>>)
    requires PayloadsTiled(a) && TracksTiled(a) && TracksShow(a, traces) && BuildChunks(c, a).Ok?
    ensures var b := BuildChunks(c, a).value;
            PayloadsTiled(b) && TracksTiled(b) && TracksShow(b, traces + FileEvents(c))
  {
    hide BuildTrack, PayloadsTiled, TracksTiled, TracksShow, TraceOf, EventsOf;
    if c.Chunk? {
      var b := BuildTrack(c.body, c.base, a).value;
      BuildTrackTiles(c.body, c.base, a);
      BuildTrackShows(c.body, c.base, a, traces);
      BuildChunksExact(c.rest, b, traces + [EventsOf(TraceOf(c.body, c.base))]);
      assert traces + FileEvents(c) == traces + [EventsOf(TraceOf(c.body, c.base))] + FileEvents(c.rest);
    } else {
      assert traces + FileEvents(c) == traces;
    }
  }

  /**
    A parsed arena shows exactly the decoded events, track by track, through its
    accessors, and both kinds of range tile their arenas in file order.
   */
  lemma ParsedArenaIsExact(data: Bytes)
    requires ParseFile(data).Ok?
    ensures var a := ParseFile(data).value;
            TracksShow(a, FileEvents(ChunksOf(data))) && PayloadsTiled(a) && TracksTiled(a)
  {
    var a := EmptyArena(ScanFile(data).value);
    BuildChunksExact(ChunksOf(data), a, []);
    assert [] + FileEvents(ChunksOf(data)) == FileEvents(ChunksOf(data));
  }

  /** Tiled ranges cover their arena: every index falls in one of them. */
  lemma {:induction false} CoveringRange(ranges: seq<TrackRange>, n: nat, i: nat) returns (t: nat)
    requires n <= |ranges| && i < EventTotal(ranges, n)
    ensures t < n && EventTotal(ranges, t) <= i < EventTotal(ranges, t) + ranges[t].len
  {
    if i < EventTotal(ranges, n - 1) {
      t := CoveringRange(ranges, n - 1, i);
    } else {
      t := n - 1;
    }
  }

  lemma LookupSucceeds(a: Arena, traces: seq<seq<TimedEvent>>, i: nat) returns (t: nat)
    requires TracksTiled(a) && TracksShow(a, traces) && i < |a.events|
    ensures a.EventData(i).Some?
    ensures t < |a.tracks| && a.tracks[t].start <= i < a.tracks[t].start + a.tracks[t].len
  {
    hide DataOf;
    t := CoveringRange(a.tracks, |a.tracks|, i);
    var j := i - a.tracks[t].start;
    assert TrackShows(a, t, traces[t]);
    assert Shows(a.payloads, a.events[a.tracks[t].start + j], traces[t][j]);
  }

  /** Every record of a parsed arena lies in the range of a track, and its data can be looked up. */
  lemma EveryLookupSucceeds(data: Bytes, i: nat) returns (t: nat)
    requires ParseFile(data).Ok? && i < |ParseFile(data).value.events|
    ensures var a := ParseFile(data).value;
            && a.EventData(i).Some?
            && t < |a.tracks| && a.tracks[t].start <= i < a.tracks[t].start + a.tracks[t].len
  {
    hide BuildChunks, FileEvents, TracksTiled, TracksShow, PayloadsTiled;
    ParsedArenaIsExact(data);
    t := LookupSucceeds(ParseFile(data).value, FileEvents(ChunksOf(data)), i);
  }

  lemma ShownLength(payloads: Bytes, r: EventRecord, e: TimedEvent)
    requires Shows(payloads, r, e) && r.IsChannel()
    ensures r.payloadLen == if 0xC0 <= r.status <= 0xDF then 1 else 2
  {
    assert |[r.data.0, r.data.1][..r.payloadLen]| == r.payloadLen;
  }

  lemma LengthInArena(a: Arena, traces: seq<seq<TimedEvent>>, i: nat)
    requires TracksTiled(a) && TracksShow(a, traces) && i < |a.events| && a.events[i].IsChannel()
    ensures a.events[i].payloadLen == if 0xC0 <= a.events[i].status <= 0xDF then 1 else 2
  {
    hide DataOf, Shows;
    var t := CoveringRange(a.tracks, |a.tracks|, i);
    var j := i - a.tracks[t].start;
    assert TrackShows(a, t, traces[t]);
    ShownLength(a.payloads, a.events[a.tracks[t].start + j], traces[t][j]);
  }

  /** The records of channel messages of status C0 to DF have one data byte, those of all other channel messages two. */
  lemma RecordLengths(data: Bytes, i: nat)
    requires ParseFile(data).Ok? && i < |ParseFile(data).value.events| && ParseFile(data).value.events[i].IsChannel()
    ensures var r := ParseFile(data).value.events[i]; r.payloadLen == if 0xC0 <= r.status <= 0xDF then 1 else 2
  {
    hide BuildChunks, FileEvents, PayloadsTiled, TracksTiled, TracksShow;
    ParsedArenaIsExact(data);
    LengthInArena(ParseFile(data).value, FileEvents(ChunksOf(data)), i);
  }

  // ----- The two passes agree

  /** Payload bytes plus one per event: no more than the bytes the events were read from. */
  function Weight(t: Trace): nat {
    if t.Step? then 1 + |PayloadOf(t.head.event)| + Weight(t.rest) else 0
  }

  function FileWeight(c: Chunks): nat {
    if c.Chunk? then Weight(TraceOf(c.body, c.base)) + FileWeight(c.rest) else 0
  }

  lemma {:induction false} WeightBounded(d: Bytes, p: nat, base: nat, running: Running)
    requires p <= |d|
    ensures Weight(TraceFrom(d, p, base, running)) <= |d| - p
    decreases |d| - p
  {
    hide EventAt, VlqAt;
    var t := TraceFrom(d, p, base, running);
    if t.Step? {
      var next := EventAt(d, VlqAt(d, p, base).value.next, base, running).value.next;
      WeightBounded(d, next, base, RunningAfter(t.head.event));
    }
  }

  lemma {:induction false} FileWeightBounded(data: Bytes, p: nat, count: nat)
    requires p <= |data|
    ensures FileWeight(ChunksFrom(data, p, count)) <= |data| - p
    decreases count
  {
    hide FrameAt, TraceFrom, Weight;
    var c := ChunksFrom(data, p, count);
    if c.Chunk? {
      WeightBounded(c.body, 0, c.base, None);
      FileWeightBounded(data, c.base + |c.body|, count - 1);
    }
  }

  /** The counters of a scan are the sizes of the arena built so far. */
  ghost predicate Counts(s: Summary, a: Arena) {
    s.events == |a.events| && s.payloadBytes == |a.payloads|
  }

  ghost predicate Fits(a: Arena, weight: nat) {
    |a.events| + weight <= U32_MAX && |a.payloads| + weight <= U32_MAX
  }

  /** Two passes fail with the same error, or both succeed with matching counts. */
  ghost predicate SameOutcome(scan: Result<Summary, ParseError>, build: Result<Arena, ParseError>) {
    match scan
    case Err(e) => build == Err(e)
    case Ok(s) => build.Ok? && Counts(s, build.value)
  }

  lemma {:induction false} BuildTraceAgrees(t: Trace, s: Summary, a: Arena)
    requires Counts(s, a) && Fits(a, Weight(t))
    ensures SameOutcome(ScanTrace(t, s), BuildTrace(t, a))
    ensures BuildTrace(t, a).Ok? ==>
              var b := BuildTrace(t, a).value;
              |b.events| <= |a.events| + Weight(t) && |b.payloads| <= |a.payloads| + Weight(t) && |a.events| <= |b.events|
  {
    if t.Step? {
      BuildTraceAgrees(t.rest, Tallied(s, t.head.delta, t.head.event),
                       BuildEvent(a, t.head.delta, t.head.event, t.head.end).value);
    }
  }

  lemma {:induction false} BuildChunksAgrees(c: Chunks, s: Summary, a: Arena)
    requires Counts(s, a) && Fits(a, FileWeight(c))
    ensures SameOutcome(ScanChunks(c, s), BuildChunks(c, a))
  {
    hide TraceOf, Weight;
    if c.Chunk? {
      var t := TraceOf(c.body, c.base);
      BuildTraceAgrees(t, s, a);
      if ScanTrace(t, s).Ok? {
        BuildChunksAgrees(c.rest, ScanTrace(t, s).value, BuildTrack(c.body, c.base, a).value);
      }
    }
  }

  lemma {:induction false} BuildChunksKeeps(c: Chunks, a: Arena)
    requires BuildChunks(c, a).Ok?
    ensures var b := BuildChunks(c, a).value;
            b.header == a.header && b.bytesConsumed == a.bytesConsumed && b.trailingBytes == a.trailingBytes
  {
    if c.Chunk? {
      BuildTraceExtends(TraceOf(c.body, c.base), a);
      BuildChunksKeeps(c.rest, BuildTrack(c.body, c.base, a).value);
    }
  }

  /**
    Below 4 GiB the building pass never adds a failure of its own: the arena
    parser fails exactly when the scanner does, with the same error, and
    otherwise holds as many events and payload bytes as the scan counted.
   */
  lemma ParseAgreesWithScan(data: Bytes)
    requires |data| <= U32_MAX
    ensures SameOutcome(ScanFile(data), ParseFile(data))
    ensures ParseFile(data).Ok? ==>
              var a, s := ParseFile(data).value, ScanFile(data).value;
              a.header == s.header && a.bytesConsumed == s.bytesConsumed && a.trailingBytes == s.trailingBytes
  {
    if HeaderAt(data).Ok? {
      var header := HeaderAt(data).value;
      FileWeightBounded(data, header.next, header.value.trackCount);
      var c := ChunksOf(data);
      if ScanFile(data).Ok? {
        BuildChunksAgrees(c, Started(header.value), EmptyArena(ScanFile(data).value));
        BuildChunksKeeps(c, EmptyArena(ScanFile(data).value));
      }
    }
  }
}
