/**
  The wire grammar against the bytes themselves: which byte strings spell a
  quantity or an event, stated over literal status bytes, and that decoding
  accepts exactly those.
 */
module WireBytes {
  import opened Base
  import opened Smf
  import opened Wire
  import opened ScoreBounds

  // ----- Quantities

  /** One to four bytes, seven bits each, most significant first, all but the last with the high bit set. */
  predicate QuantitySpelled(s: Bytes, value: nat) {
    || (|s| == 1 && s[0] < 0x80 && value == s[0])
    || (|s| == 2 && s[0] >= 0x80 && s[1] < 0x80 && value == (s[0] as int - 0x80) * 0x80 + s[1])
    || (|s| == 3 && s[0] >= 0x80 && s[1] >= 0x80 && s[2] < 0x80
        && value == (s[0] as int - 0x80) * 0x4000 + (s[1] as int - 0x80) * 0x80 + s[2])
    || (|s| == 4 && s[0] >= 0x80 && s[1] >= 0x80 && s[2] >= 0x80 && s[3] < 0x80
        && value == (s[0] as int - 0x80) * 0x20_0000 + (s[1] as int - 0x80) * 0x4000 + (s[2] as int - 0x80) * 0x80 + s[3])
  }

  lemma VlqFromUnfold(d: Bytes, p: nat, base: nat, start: nat, value: nat, left: nat)
    requires p <= |d|
    ensures VlqFrom(d, p, base, start, value, left)
         == if left == 0 then Err(At(start, VariableLengthQuantityTooLong))
            else if p == |d| then Err(At(base + p, UnexpectedEnd))
            else if d[p] < 0x80 then Ok(Read(value * 0x80 + d[p] % 0x80, p + 1))
            else VlqFrom(d, p + 1, base, start, value * 0x80 + d[p] % 0x80, left - 1)
  {}

  lemma VlqAtIs(d: Bytes, p: nat, base: nat)
    requires p <= |d|
    ensures match VlqFrom(d, p, base, base + p, 0, 4)
            case Ok(r) => r.value < 0x1000_0000 && VlqAt(d, p, base) == Ok(Read(r.value, r.next))
            case Err(e) => VlqAt(d, p, base) == Err(e)
  {
    hide Pow128, VlqFrom;
    VlqFromBounded(d, p, base, base + p, 0, 4);
  }

  /** The value of the first continuation bytes at `p`. */
  function Groups(d: Bytes, p: nat, count: nat): int
    requires 1 <= count <= 3 && p + count <= |d|
  {
    if count == 1 then d[p] as int - 0x80
    else Groups(d, p, count - 1) * 0x80 + (d[p + count - 1] as int - 0x80)
  }

  /** The four turns of the loop, written out. */
  lemma VlqUnrolled(d: Bytes, p: nat, base: nat)
    requires p <= |d|
    ensures VlqFrom(d, p, base, base + p, 0, 4)
         == if p == |d| then Err(At(base + |d|, UnexpectedEnd))
            else if d[p] < 0x80 then Ok(Read(d[p] as nat, p + 1))
            else if p + 1 == |d| then Err(At(base + |d|, UnexpectedEnd))
            else if d[p + 1] < 0x80 then Ok(Read(Groups(d, p, 1) * 0x80 + d[p + 1], p + 2))
            else if p + 2 == |d| then Err(At(base + |d|, UnexpectedEnd))
            else if d[p + 2] < 0x80 then Ok(Read(Groups(d, p, 2) * 0x80 + d[p + 2], p + 3))
            else if p + 3 == |d| then Err(At(base + |d|, UnexpectedEnd))
            else if d[p + 3] < 0x80 then Ok(Read(Groups(d, p, 3) * 0x80 + d[p + 3], p + 4))
            else Err(At(base + p, VariableLengthQuantityTooLong))
  {
    hide VlqFrom;
    VlqFromUnfold(d, p, base, base + p, 0, 4);
    if p < |d| && d[p] >= 0x80 {
      VlqFromUnfold(d, p + 1, base, base + p, Groups(d, p, 1), 3);
      if p + 1 < |d| && d[p + 1] >= 0x80 {
        VlqFromUnfold(d, p + 2, base, base + p, Groups(d, p, 2), 2);
        if p + 2 < |d| && d[p + 2] >= 0x80 {
          VlqFromUnfold(d, p + 3, base, base + p, Groups(d, p, 3), 1);
          if p + 3 < |d| && d[p + 3] >= 0x80 {
            VlqFromUnfold(d, p + 4, base, base + p, Groups(d, p, 3) * 0x80 + (d[p + 3] as int - 0x80), 0);
          }
        }
      }
    }
  }

  /** The spelling of a quantity that lies in a payload, byte by byte. */
  lemma QuantityBytes(d: Bytes, p: nat, next: nat, value: nat)
    requires p < next <= |d|
    ensures QuantitySpelled(d[p..next], value)
       <==> || (next == p + 1 && d[p] < 0x80 && value == d[p])
            || (next == p + 2 && d[p] >= 0x80 && d[p + 1] < 0x80 && value == Groups(d, p, 1) * 0x80 + d[p + 1])
            || (next == p + 3 && d[p] >= 0x80 && d[p + 1] >= 0x80 && d[p + 2] < 0x80
                && value == Groups(d, p, 2) * 0x80 + d[p + 2])
            || (next == p + 4 && d[p] >= 0x80 && d[p + 1] >= 0x80 && d[p + 2] >= 0x80 && d[p + 3] < 0x80
                && value == Groups(d, p, 3) * 0x80 + d[p + 3])
  {
    var s := d[p..next];
    assert s[0] == d[p];
    if |s| == 4 {
      assert Groups(d, p, 3) == (Groups(d, p, 1) * 0x80 + (d[p + 1] as int - 0x80)) * 0x80 + (d[p + 2] as int - 0x80);
    }
  }

  /** Decoding a quantity accepts exactly the bytes that spell it. */
  lemma QuantityIff(d: Bytes, p: nat, base: nat, value: nat, next: nat)
    requires p <= |d|
    ensures (VlqAt(d, p, base).Ok? && VlqAt(d, p, base).value.value == value && VlqAt(d, p, base).value.next == next)
       <==> p < next <= |d| && QuantitySpelled(d[p..next], value)
  {
    hide VlqAt, VlqFrom, QuantitySpelled, Groups;
    VlqAtIs(d, p, base);
    VlqUnrolled(d, p, base);
    if p < next <= |d| {
      QuantityBytes(d, p, next, value);
    }
  }

  /** A quantity fails at the end of the payload, or at its own start after four continuation bytes. */
  lemma QuantityFails(d: Bytes, p: nat, base: nat)
    requires p <= |d| && VlqAt(d, p, base).Err?
    ensures VlqAt(d, p, base).error
         == if p + 4 <= |d| then At(base + p, VariableLengthQuantityTooLong) else At(base + |d|, UnexpectedEnd)
    ensures forall q :: p <= q < |d| && q < p + 4 ==> d[q] >= 0x80
  {
    hide VlqAt, VlqFrom, Groups;
    VlqAtIs(d, p, base);
    VlqUnrolled(d, p, base);
  }

  // ----- Events

  /** The data bytes of a channel message: one for C0 to DF, two for all other channel statuses. */
  function DataOfMessage(status: ChannelStatus, first: u7, second: u7): Bytes {
    if 0xC0 <= status <= 0xDF then [first] else [first, second]
  }

  /** A length, spelled as a quantity, and as many bytes. */
  predicate PayloadSpelled(s: Bytes, payload: Bytes) {
    |payload| < |s| && QuantitySpelled(s[..|s| - |payload|], |payload|) && s[|s| - |payload|..] == payload
  }

  /** The bytes of an event; a channel message may leave out the status that the message before it had. */
  predicate EventSpelled(s: Bytes, event: Event, previous: Running) {
    match event
    case Channel(status, first, second) =>
      && (0xC0 <= status <= 0xDF ==> second == 0)
      && (s == [status] + DataOfMessage(status, first, second)
          || (previous == Some(status) && s == DataOfMessage(status, first, second)))
    case Meta(metaType, payload) => |s| >= 2 && s[0] == 0xFF && s[1] == metaType && PayloadSpelled(s[2..], payload)
    case SysEx(status, payload) => |s| >= 1 && s[0] == status && PayloadSpelled(s[1..], payload)
  }

  /** The data bytes at `q`, for any status: read, cut off, or with the high bit set. */
  lemma DataBytesAt(d: Bytes, p: nat, base: nat, status: ChannelStatus, firstData: Option<u8>)
    requires p <= |d| && (firstData.Some? ==> p > 0 && d[p - 1] == firstData.value)
    ensures var q, one := if firstData.Some? then p - 1 else p, 0xC0 <= status <= 0xDF;
            ChannelAt(d, p, base, status, firstData)
            == if q == |d| then Err(At(base + q, UnexpectedEnd))
               else if d[q] >= 0x80 then Err(At(base + q, InvalidDataByte(d[q])))
               else if one then Ok(Read(Channel(status, d[q], 0), q + 1))
               else if q + 1 == |d| then Err(At(base + q + 1, UnexpectedEnd))
               else if d[q + 1] >= 0x80 then Err(At(base + q + 1, InvalidDataByte(d[q + 1])))
               else Ok(Read(Channel(status, d[q], d[q + 1]), q + 2))
  {}

  /** Messages of C0 to DF take one data byte and all others two, with a status of their own or the running one. */
  lemma ChannelLengths(d: Bytes, p: nat, base: nat, running: Running)
    requires p < |d|
    ensures 0xC0 <= d[p] <= 0xDF && p + 1 < |d| && d[p + 1] < 0x80 ==>
              EventAt(d, p, base, running) == Ok(Read(Channel(d[p], d[p + 1], 0), p + 2))
    ensures (0x80 <= d[p] <= 0xBF || 0xE0 <= d[p] <= 0xEF) && p + 2 < |d| && d[p + 1] < 0x80 && d[p + 2] < 0x80 ==>
              EventAt(d, p, base, running) == Ok(Read(Channel(d[p], d[p + 1], d[p + 2]), p + 3))
    ensures d[p] < 0x80 && running.Some? && 0xC0 <= running.value <= 0xDF ==>
              EventAt(d, p, base, running) == Ok(Read(Channel(running.value, d[p], 0), p + 1))
    ensures d[p] < 0x80 && running.Some? && !(0xC0 <= running.value <= 0xDF) && p + 1 < |d| && d[p + 1] < 0x80 ==>
              EventAt(d, p, base, running) == Ok(Read(Channel(running.value, d[p], d[p + 1]), p + 2))
  {
    hide ChannelAt, MetaAt, SysExAt;
    if d[p] < 0x80 {
      if running.Some? {
        DataBytesAt(d, p + 1, base, running.value, Some(d[p]));
      }
    } else if d[p] < 0xF0 {
      DataBytesAt(d, p + 1, base, d[p], None);
    }
  }

  /** An event read at a position: which one, and where it ends. */
  predicate ReadsAs<T(==)>(r: Reading<T>, value: T, next: nat) {
    r.Ok? && r.value.value == value && r.value.next == next
  }

  lemma PayloadIff(d: Bytes, p: nat, base: nat, payload: Bytes, next: nat)
    requires p <= |d|
    ensures ReadsAs(PayloadAt(d, p, base), payload, next) <==> p <= next <= |d| && PayloadSpelled(d[p..next], payload)
  {
    hide VlqAt, QuantitySpelled;
    var length := VlqAt(d, p, base);
    if ReadsAs(PayloadAt(d, p, base), payload, next) {
      QuantityIff(d, p, base, |payload|, length.value.next);
      assert d[p..next][..|d[p..next]| - |payload|] == d[p..length.value.next];
      assert d[p..next][|d[p..next]| - |payload|..] == payload;
    }
    if p <= next <= |d| && PayloadSpelled(d[p..next], payload) {
      var start := next - |payload|;
      assert d[p..next][..|d[p..next]| - |payload|] == d[p..start];
      assert d[p..next][|d[p..next]| - |payload|..] == d[start..next];
      QuantityIff(d, p, base, |payload|, start);
    }
  }

  lemma MetaIff(d: Bytes, p: nat, base: nat, metaType: u8, payload: Bytes, next: nat, running: Running)
    requires p < |d| && d[p] == 0xFF
    ensures ReadsAs(EventAt(d, p, base, running), Event.Meta(metaType, payload), next)
       <==> p < next <= |d| && EventSpelled(d[p..next], Event.Meta(metaType, payload), running)
  {
    hide PayloadAt, PayloadSpelled, ChannelAt, SysExAt;
    if p + 1 < |d| {
      PayloadIff(d, p + 2, base, payload, next);
      if p + 2 <= next <= |d| {
        assert d[p..next][2..] == d[p + 2..next];
        assert d[p..next][0] == d[p] && d[p..next][1] == d[p + 1];
      }
    }
  }

  lemma SysExIff(d: Bytes, p: nat, base: nat, payload: Bytes, next: nat, running: Running)
    requires p < |d| && (d[p] == 0xF0 || d[p] == 0xF7)
    ensures ReadsAs(EventAt(d, p, base, running), Event.SysEx(d[p], payload), next)
       <==> p < next <= |d| && EventSpelled(d[p..next], Event.SysEx(d[p], payload), running)
  {
    hide PayloadAt, PayloadSpelled, ChannelAt, MetaAt;
    PayloadIff(d, p + 1, base, payload, next);
    if p + 1 <= next <= |d| {
      assert d[p..next][1..] == d[p + 1..next];
      assert d[p..next][0] == d[p];
    }
  }

  /** The bytes of a channel message, one by one. */
  lemma MessageBytes(s: Bytes, status: ChannelStatus, first: u7, second: u7, previous: Running)
    ensures EventSpelled(s, Channel(status, first, second), previous)
       <==> if 0xC0 <= status <= 0xDF then
              && second == 0
              && ((|s| == 2 && s[0] == status && s[1] == first) || (previous == Some(status) && |s| == 1 && s[0] == first))
            else
              || (|s| == 3 && s[0] == status && s[1] == first && s[2] == second)
              || (previous == Some(status) && |s| == 2 && s[0] == first && s[1] == second)
  {
    var data := DataOfMessage(status, first, second);
    if |s| == |data| {
      assert s == data <==> forall i :: 0 <= i < |data| ==> s[i] == data[i];
    }
    if |s| == |data| + 1 {
      var all := [status] + data;
      assert s == all <==> forall i :: 0 <= i < |all| ==> s[i] == all[i];
    }
  }

  lemma MessageIff(d: Bytes, p: nat, base: nat, status: ChannelStatus, first: u7, second: u7, next: nat, running: Running)
    requires p < |d| && d[p] < 0xF0
    ensures ReadsAs(EventAt(d, p, base, running), Channel(status, first, second), next)
       <==> p < next <= |d| && EventSpelled(d[p..next], Channel(status, first, second), running)
  {
    hide ChannelAt, MetaAt, SysExAt, EventSpelled;
    if d[p] >= 0x80 {
      DataBytesAt(d, p + 1, base, d[p], None);
    } else if running.Some? {
      DataBytesAt(d, p + 1, base, running.value, Some(d[p]));
    }
    if p < next <= |d| {
      var s := d[p..next];
      MessageBytes(s, status, first, second, running);
      assert |s| == next - p && forall i :: 0 <= i < |s| ==> s[i] == d[p + i];
    }
  }

  /**
    Every decoder reads an event at a position exactly if the bytes from there to
    its end spell it, with the status of the message before it to lean on.
   */
  lemma EventIff(d: Bytes, p: nat, base: nat, running: Running, event: Event, next: nat)
    requires p <= |d|
    ensures ReadsAs(EventAt(d, p, base, running), event, next)
       <==> p < next <= |d| && EventSpelled(d[p..next], event, running)
  {
    hide PayloadSpelled, EventSpelled;
    if p < |d| {
      FirstByte(d, p, base, running, event, next);
      match event {
        case Channel(status, first, second) =>
          if d[p] < 0xF0 {
            MessageIff(d, p, base, status, first, second, next, running);
          }
        case Meta(metaType, payload) =>
          if d[p] == 0xFF {
            MetaIff(d, p, base, metaType, payload, next, running);
          }
        case SysEx(status, payload) =>
          if d[p] == status {
            SysExIff(d, p, base, payload, next, running);
          }
      }
    }
  }

  /** The first byte tells the kind of event, in the decoder and in the spelling alike. */
  lemma FirstByte(d: Bytes, p: nat, base: nat, running: Running, event: Event, next: nat)
    requires p < |d|
    ensures ReadsAs(EventAt(d, p, base, running), event, next) || (p < next <= |d| && EventSpelled(d[p..next], event, running)) ==>
              match event
              case Channel(_, _, _) => d[p] < 0xF0
              case Meta(_, _) => d[p] == 0xFF
              case SysEx(status, _) => d[p] == status
  {
    hide PayloadSpelled, PayloadAt, ChannelAt;
    if p < next <= |d| {
      assert d[p..next][0] == d[p];
    }
  }

  // ----- Failures

  /** The failure of a payload whose length is at `p`. */
  predicate PayloadCut(d: Bytes, p: nat, base: nat, e: ParseError)
    requires p <= |d|
  {
    || (VlqAt(d, p, base).Err? && e == VlqAt(d, p, base).error)
    || (VlqAt(d, p, base).Ok? && VlqAt(d, p, base).value.next + VlqAt(d, p, base).value.value > |d|
        && e == At(base + VlqAt(d, p, base).value.next, UnexpectedEnd))
  }

  /** Why the data bytes at `q` cannot be read: the payload ends, or a byte has its high bit set. */
  predicate DataCut(d: Bytes, q: nat, base: nat, status: ChannelStatus, e: ParseError) {
    || (q == |d| && e == At(base + |d|, UnexpectedEnd))
    || (q < |d| && d[q] >= 0x80 && e == At(base + q, InvalidDataByte(d[q])))
    || (q < |d| && d[q] < 0x80 && !(0xC0 <= status <= 0xDF) && q + 1 == |d| && e == At(base + |d|, UnexpectedEnd))
    || (q + 1 < |d| && d[q] < 0x80 && !(0xC0 <= status <= 0xDF) && d[q + 1] >= 0x80
        && e == At(base + q + 1, InvalidDataByte(d[q + 1])))
  }

  /** Why no event can be read at a position, and where that is reported. */
  predicate EventCut(d: Bytes, p: nat, base: nat, running: Running, e: ParseError)
    requires p <= |d|
  {
    if p == |d| then e == At(base + |d|, UnexpectedEnd)
    else if d[p] < 0x80 then
      if running.None? then e == At(base + p, RunningStatusMissing) else DataCut(d, p, base, running.value, e)
    else if d[p] <= 0xEF then DataCut(d, p + 1, base, d[p], e)
    else if d[p] == 0xFF then
      if p + 1 == |d| then e == At(base + |d|, UnexpectedEnd) else PayloadCut(d, p + 2, base, e)
    else if d[p] == 0xF0 || d[p] == 0xF7 then PayloadCut(d, p + 1, base, e)
    else e == At(base + p, InvalidStatus(d[p]))
  }

  /** A failure is reported for its own reason at its own offset. */
  lemma EventFails(d: Bytes, p: nat, base: nat, running: Running)
    requires p <= |d| && EventAt(d, p, base, running).Err?
    ensures EventCut(d, p, base, running, EventAt(d, p, base, running).error)
  {
    hide VlqAt, ChannelAt;
    if p < |d| && d[p] < 0x80 && running.Some? {
      DataBytesAt(d, p + 1, base, running.value, Some(d[p]));
    } else if p < |d| && 0x80 <= d[p] <= 0xEF {
      DataBytesAt(d, p + 1, base, d[p], None);
    }
  }

  // ----- Whole payloads

  /** The status that may be left out at index `i`: that of a channel message just before it, and none otherwise. */
  function StatusBefore(es: seq<TimedEvent>, i: nat, running: Running): Running
    requires i <= |es|
  {
    if i == 0 then running
    else if es[i - 1].event.Channel? then Some(es[i - 1].event.status)
    else None
  }

  /** The bytes between two absolute offsets of a payload at `base` spell an event with its delta time. */
  predicate TimedSpelled(d: Bytes, base: nat, e: TimedEvent, previous: Running) {
    && base <= e.deltaOffset < e.offset < e.end <= base + |d|
    && QuantitySpelled(d[e.deltaOffset - base..e.offset - base], e.delta)
    && EventSpelled(d[e.offset - base..e.end - base], e.event, previous)
  }

  lemma HeadSpelled(d: Bytes, p: nat, base: nat, running: Running)
    requires p < |d| && TraceFrom(d, p, base, running).Step?
    ensures TimedSpelled(d, base, TraceFrom(d, p, base, running).head, running)
  {
    hide VlqAt, EventAt, EventSpelled, QuantitySpelled;
    var delta := VlqAt(d, p, base).value;
    QuantityIff(d, p, base, delta.value, delta.next);
    var body := EventAt(d, delta.next, base, running).value;
    EventIff(d, delta.next, base, running, body.value, body.next);
  }

  /** Each event is spelled out by its bytes, behind the one before it. */
  ghost predicate AllSpelled(d: Bytes, base: nat, es: seq<TimedEvent>, running: Running) {
    forall i :: 0 <= i < |es| ==> TimedSpelled(d, base, es[i], StatusBefore(es, i, running))
  }

  lemma SpelledPrepend(d: Bytes, base: nat, e: TimedEvent, es: seq<TimedEvent>, running: Running)
    requires TimedSpelled(d, base, e, running)
    requires AllSpelled(d, base, es, if e.event.Channel? then Some(e.event.status) else None)
    ensures AllSpelled(d, base, [e] + es, running)
  {
    hide TimedSpelled;
    var all, behind := [e] + es, if e.event.Channel? then Some(e.event.status) else None;
    forall i | 0 <= i < |all| ensures TimedSpelled(d, base, all[i], StatusBefore(all, i, running)) {
      if i > 0 {
        assert all[i] == es[i - 1] && StatusBefore(all, i, running) == StatusBefore(es, i - 1, behind);
      }
    }
  }

  lemma {:induction false} TraceSpelled(d: Bytes, p: nat, base: nat, running: Running)
    requires p <= |d|
    ensures AllSpelled(d, base, EventsOf(TraceFrom(d, p, base, running)), running)
    decreases |d| - p
  {
    hide VlqAt, EventAt, TimedSpelled, AllSpelled;
    var t := TraceFrom(d, p, base, running);
    NoneSpelled(d, base, running);
    if t.Step? {
      HeadSpelled(d, p, base, running);
      TraceSpelled(d, EventAt(d, VlqAt(d, p, base).value.next, base, running).value.next, base, RunningAfter(t.head.event));
      SpelledPrepend(d, base, t.head, EventsOf(t.rest), running);
    }
  }

  lemma NoneSpelled(d: Bytes, base: nat, running: Running)
    ensures AllSpelled(d, base, [], running)
  {}

  /**
    A payload is spelled out by its events: they lie end to end from the first
    byte, each delta and each event is spelled by the bytes it occupies, and they
    fill the payload exactly if decoding meets no error.
   */
  lemma PayloadIsSpelled(d: Bytes, base: nat)
    ensures var es := EventsOf(TraceOf(d, base));
            && AllSpelled(d, base, es, None)
            && exists end :: base <= end <= base + |d| && Consecutive(es, base, end)
                             && (TraceError(TraceOf(d, base)).None? <==> end == base + |d|)
  {
    hide TraceFrom, AllSpelled, Consecutive, EventsOf, TraceError;
    TraceSpelled(d, 0, base, None);
    var end := EventsTile(d, 0, base, None);
    assert Consecutive(EventsOf(TraceOf(d, base)), base, base + end);
  }

  // ----- Headers and chunks

  predicate Spells16(s: Bytes, n: u16) {
    s == [n / 0x100, n % 0x100]
  }

  predicate Spells32(s: Bytes, n: u32) {
    s == [n / 0x100_0000, n / 0x1_0000 % 0x100, n / 0x100 % 0x100, n % 0x100]
  }

  lemma Word16Spelled(s: Bytes, n: u16)
    requires |s| == 2
    ensures Word16(s) == n <==> Spells16(s, n)
  {}

  lemma Word32Spelled(s: Bytes, n: u32)
    requires |s| == 4
    ensures Word32(s) == n <==> Spells32(s, n)
  {
    var high, low := Word16(s[..2]), Word16(s[2..]);
    Word16Spelled(s[..2], high);
    Word16Spelled(s[2..], low);
    assert s == s[..2] + s[2..];
    Quarters(high, low);
    Halves(n);
    if Spells32(s, n) {
      assert Spells16(s[..2], n / 0x1_0000) && Spells16(s[2..], n % 0x1_0000);
      Word16Spelled(s[..2], n / 0x1_0000);
      Word16Spelled(s[2..], n % 0x1_0000);
    }
  }

  lemma Quarters(high: u16, low: u16)
    ensures var n: nat := high as int * 0x1_0000 + low;
            && n / 0x100_0000 == high / 0x100 && n / 0x1_0000 % 0x100 == high % 0x100
            && n / 0x100 % 0x100 == low / 0x100 && n % 0x100 == low % 0x100
  {
    var n: nat := high as int * 0x1_0000 + low;
    var a, b, c, d := high / 0x100, high % 0x100, low / 0x100, low % 0x100;
    assert n == ((a * 0x100 + b) * 0x100 + c) * 0x100 + d;
    assert n / 0x100 == (a * 0x100 + b) * 0x100 + c;
    assert n / 0x1_0000 == a * 0x100 + b;
  }

  lemma Halves(n: u32)
    ensures n / 0x100_0000 == n / 0x1_0000 / 0x100 && n / 0x100 % 0x100 == n % 0x1_0000 / 0x100
    ensures n % 0x100 == n % 0x1_0000 % 0x100 && n == n / 0x1_0000 * 0x1_0000 + n % 0x1_0000
  {
    var q, r := n / 0x1_0000, n % 0x1_0000;
    assert n == q * 0x1_0000 + r;
    assert n / 0x100 == q * 0x100 + r / 0x100;
  }

  /** A header chunk of at least six bytes: format 0, 1 or 2, then the number of tracks and the division. */
  predicate HeaderSpelled(data: Bytes, header: Header, next: nat) {
    && 14 <= next <= |data| && next - 8 <= U32_MAX
    && data[..4] == [0x4D, 0x54, 0x68, 0x64] && Spells32(data[4..8], next - 8)
    && Spells16(data[8..10], match header.format case SingleTrack => 0 case Parallel => 1 case Sequential => 2)
    && Spells16(data[10..12], header.trackCount) && Spells16(data[12..14], header.division)
  }

  lemma HeaderSlices(data: Bytes, end: nat)
    requires 14 <= end <= |data|
    ensures data[8..end][..2] == data[8..10] && data[8..end][2..4] == data[10..12] && data[8..end][4..6] == data[12..14]
  {
    var body := data[8..end];
    assert body[2..4] == [body[2], body[3]] && body[4..6] == [body[4], body[5]];
    assert data[10..12] == [data[10], data[11]] && data[12..14] == [data[12], data[13]];
  }

  lemma RawHeaderIs(data: Bytes)
    requires |data| >= 14
    ensures var end := 8 + Word32(data[4..8]);
            RawHeaderAt(data).Ok? ==>
              && data[..4] == [0x4D, 0x54, 0x68, 0x64] && 14 <= end <= |data|
              && RawHeaderAt(data).value
                 == Read(RawHeader(Word16(data[8..10]), Word16(data[10..12]), Word16(data[12..14])), end)
    ensures data[..4] == [0x4D, 0x54, 0x68, 0x64] && 14 <= 8 + Word32(data[4..8]) <= |data| ==> RawHeaderAt(data).Ok?
  {
    hide Word32, Word16;
    assert data[0..4] == data[..4] && data[4..4 + 4] == data[4..8];
    var end := 8 + Word32(data[4..8]);
    if 14 <= end <= |data| {
      HeaderSlices(data, end);
    }
  }

  /** A header is read exactly where it is spelled. */
  lemma HeaderIff(data: Bytes, header: Header, next: nat)
    ensures ReadsAs(HeaderAt(data), header, next) <==> HeaderSpelled(data, header, next)
  {
    hide Word32, Word16, Spells32, Spells16, RawHeaderAt;
    if |data| >= 14 {
      RawHeaderIs(data);
      Word32Spelled(data[4..8], Word32(data[4..8]));
      if 8 <= next <= 8 + U32_MAX {
        Word32Spelled(data[4..8], next - 8);
      }
      Word16Spelled(data[8..10], match header.format case SingleTrack => 0 case Parallel => 1 case Sequential => 2);
      Word16Spelled(data[10..12], header.trackCount);
      Word16Spelled(data[12..14], header.division);
    }
  }

  /** A chunk is framed exactly where its tag, its size and its payload are spelled. */
  lemma FrameIff(data: Bytes, p: nat, body: Bytes)
    requires p <= |data|
    ensures FrameAt(data, p) == Framed(body)
       <==> && |body| <= U32_MAX && p + 8 + |body| <= |data|
            && data[p..p + 4] == [0x4D, 0x54, 0x72, 0x6B] && Spells32(data[p + 4..p + 8], |body|)
            && data[p + 8..p + 8 + |body|] == body
  {
    hide Word32, Spells32;
    if p + 8 <= |data| {
      Word32Spelled(data[p + 4..p + 8], Word32(data[p + 4..p + 8]));
      if |body| <= U32_MAX {
        Word32Spelled(data[p + 4..p + 8], |body|);
      }
    }
  }

  /** Why no header can be read: the first thing that is missing or wrong, reported where it stands. */
  predicate HeaderCut(data: Bytes, e: ParseError) {
    if |data| < 4 then e == At(0, UnexpectedEnd)
    else if data[..4] != [0x4D, 0x54, 0x68, 0x64] then e == At(0, ExpectedChunk([0x4D, 0x54, 0x68, 0x64], data[..4]))
    else if |data| < 8 then e == At(4, UnexpectedEnd)
    else if Word32(data[4..8]) < 6 then e == At(4, HeaderTooShort(Word32(data[4..8])))
    else if |data| < 8 + Word32(data[4..8]) then e == At(8, UnexpectedEnd)
    else Word16(data[8..10]) > 2 && e == At(8, InvalidFormat(Word16(data[8..10])))
  }

  lemma HeaderFails(data: Bytes)
    requires HeaderAt(data).Err?
    ensures HeaderCut(data, HeaderAt(data).error)
  {
    hide Word32, Word16;
    if |data| >= 4 {
      assert data[0..4] == data[..4];
    }
    if |data| >= 14 {
      RawHeaderIs(data);
    }
  }

  /** Why no chunk can be framed at a position. */
  predicate FrameCut(data: Bytes, p: nat, size: Option<u32>, e: ParseError)
    requires p <= |data|
  {
    if |data| < p + 4 then size == None && e == At(p, UnexpectedEnd)
    else if data[p..p + 4] != [0x4D, 0x54, 0x72, 0x6B] then
      size == None && e == At(p, ExpectedChunk([0x4D, 0x54, 0x72, 0x6B], data[p..p + 4]))
    else if |data| < p + 8 then size == None && e == At(p + 4, UnexpectedEnd)
    else size == Some(Word32(data[p + 4..p + 8])) && |data| < p + 8 + Word32(data[p + 4..p + 8]) && e == At(p + 8, UnexpectedEnd)
  }

  lemma FrameFails(data: Bytes, p: nat)
    requires p <= |data| && FrameAt(data, p).Unframed?
    ensures FrameCut(data, p, FrameAt(data, p).size, FrameAt(data, p).error)
  {
    hide Word32;
  }
}
