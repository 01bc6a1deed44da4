/**
  The corpus generator's event printer: a channel status is omitted while it
  repeats. Against the decoder, and against printing every status.
 */
module Printer {
  import opened Base
  import opened Smf
  import opened Wire
  import opened EventArena
  import opened VlqCodec

  /** An event with its delta time, as the generator hands it to the printer. */
  datatype Message = Message(delta: u28, event: Event)

  /** What the generator prints: channel messages and meta events whose length is a quantity. */
  predicate Printable(m: Message) {
    match m.event
    case Channel(status, _, second) => 0xC0 <= status <= 0xDF ==> second == 0
    case Meta(_, payload) => |payload| <= VLQ_MAX
    case SysEx(_, _) => false
  }

  type PrintableMessage = m: Message | Printable(m) witness Message(0, Meta(0, []))

  function DataBytes(status: ChannelStatus, first: u7, second: u7): Bytes {
    if 0xC0 <= status <= 0xDF then [first] else [first, second]
  }

  /** One printed event, with `running` the status last printed. */
  function EventBytes(event: Event, running: Running): (s: Bytes)
    requires event.Meta? ==> |event.payload| <= VLQ_MAX
    ensures |s| >= 1
  {
    match event
    case Channel(status, first, second) =>
      (if running == Some(status) then [] else [status]) + DataBytes(status, first, second)
    case Meta(metaType, payload) => [0xFF, metaType] + Vlq(|payload|) + payload
    case SysEx(status, _) => [status]
  }

  /** The printer's status register; meta events leave it alone. */
  function PrinterAfter(event: Event, running: Running): Running {
    if event.Channel? then Some(event.status) else running
  }

  /** A whole list, omitting repeated statuses (or none at all, if `explicit`). */
  function Print(ms: seq<PrintableMessage>, running: Running, explicit: bool): Bytes
  {
    if ms == [] then []
    else
      Vlq(ms[0].delta) + EventBytes(ms[0].event, if explicit then None else running)
        + Print(ms[1..], PrinterAfter(ms[0].event, running), explicit)
  }

  // ----- What decoding gives back

  /** The trace is these messages, to the end of the payload. */
  predicate Decodes(t: Trace, ms: seq<Message>)
    decreases t
  {
    match t
    case End => ms == []
    case Bad(_, _) => false
    case Step(head, rest) =>
      && ms != [] && ms[0] == Message(head.delta, head.event)
      && (head.remaining == 0 <==> rest.End?)
      && Decodes(rest, ms[1..])
  }

  function FirstError(t: Trace): Option<ErrorKind> {
    match t
    case End => None
    case Bad(_, e) => Some(e.kind)
    case Step(_, rest) => FirstError(rest)
  }

  /** After every meta event the next channel message shows its status. */
  predicate StatusResent(ms: seq<Message>, printer: Running, decoder: Running) {
    ms == []
    || (var event := ms[0].event;
        && (event.Channel? && printer == Some(event.status) ==> decoder == printer)
        && StatusResent(ms[1..], PrinterAfter(event, printer), RunningAfter(event)))
  }

  lemma DecodeData(d: Bytes, p: nat, base: nat, event: Event, firstData: Option<u8>)
    requires event.Channel? && Printable(Message(0, event))
    requires match firstData
             case None => StandsAt(d, p, DataBytes(event.status, event.first, event.second))
             case Some(b) => p > 0 && b == event.first && StandsAt(d, p - 1, DataBytes(event.status, event.first, event.second))
    ensures ChannelAt(d, p, base, event.status, firstData)
         == Ok(Read(event, p + |DataBytes(event.status, event.first, event.second)| - if firstData.Some? then 1 else 0))
  {
    var start := if firstData.Some? then p - 1 else p;
    var data := DataBytes(event.status, event.first, event.second);
    assert d[start] == d[start..start + |data|][0];
    assert |data| == 2 ==> d[start + 1] == d[start..start + |data|][1];
  }

  /** A channel message decodes, unless its status was omitted and the decoder has none. */
  lemma DecodeChannel(d: Bytes, p: nat, base: nat, event: Event, printed: Running, decoder: Running)
    requires event.Channel? && Printable(Message(0, event)) && StandsAt(d, p, EventBytes(event, printed))
    requires decoder == None || decoder == printed || printed == None
    ensures EventAt(d, p, base, decoder)
         == if printed == Some(event.status) && decoder == None then Err(At(base + p, RunningStatusMissing))
            else Ok(Read(event, p + |EventBytes(event, printed)|))
  {
    hide ChannelAt, MetaAt, SysExAt, DataBytes;
    var data := DataBytes(event.status, event.first, event.second);
    if printed == Some(event.status) {
      assert EventBytes(event, printed) == data;
      FirstData(d, p, event);
      if decoder.Some? {
        DecodeData(d, p + 1, base, event, Some(event.first));
      }
    } else {
      StandsSplit(d, p, [event.status], data);
      assert d[p] == d[p..p + 1][0] == event.status;
      DecodeData(d, p + 1, base, event, None);
    }
  }

  lemma FirstData(d: Bytes, p: nat, event: Event)
    requires event.Channel? && StandsAt(d, p, DataBytes(event.status, event.first, event.second))
    ensures p < |d| && d[p] == event.first
  {
    var data := DataBytes(event.status, event.first, event.second);
    assert d[p] == d[p..p + |data|][0];
  }

  lemma DecodeMeta(d: Bytes, p: nat, base: nat, event: Event, printed: Running, decoder: Running)
    requires event.Meta? && Printable(Message(0, event)) && StandsAt(d, p, EventBytes(event, printed))
    ensures EventAt(d, p, base, decoder) == Ok(Read(event, p + |EventBytes(event, printed)|))
  {
    hide MetaAt, ChannelAt, SysExAt;
    DecodeMetaBody(d, p, base, event, printed);
  }

  lemma DecodePayload(d: Bytes, p: nat, base: nat, payload: Bytes)
    requires |payload| <= VLQ_MAX && StandsAt(d, p, Vlq(|payload|) + payload)
    ensures PayloadAt(d, p, base) == Ok(Read(payload, p + |Vlq(|payload|)| + |payload|))
  {
    hide VlqAt, Vlq;
    StandsSplit(d, p, Vlq(|payload|), payload);
    VlqRoundTrip(d, p, base, |payload|);
  }

  lemma DecodeMetaBody(d: Bytes, p: nat, base: nat, event: Event, printed: Running)
    requires event.Meta? && Printable(Message(0, event)) && StandsAt(d, p, EventBytes(event, printed))
    ensures p + 2 <= |d| && d[p] == 0xFF
    ensures MetaAt(d, p + 1, base) == Ok(Read(event, p + |EventBytes(event, printed)|))
  {
    hide PayloadAt, Vlq;
    var length, payload := Vlq(|event.payload|), event.payload;
    assert EventBytes(event, printed) == [0xFF, event.metaType] + (length + payload);
    StandsSplit(d, p, [0xFF, event.metaType], length + payload);
    assert d[p] == d[p..p + 2][0] && d[p + 1] == d[p..p + 2][1];
    DecodePayload(d, p + 2, base, payload);
  }

  lemma DecodeOne(d: Bytes, p: nat, base: nat, m: PrintableMessage, printed: Running, decoder: Running)
    requires StandsAt(d, p, Vlq(m.delta) + EventBytes(m.event, printed))
    requires decoder == None || decoder == printed || printed == None
    ensures var next := p + |Vlq(m.delta)|;
            && VlqAt(d, p, base) == Ok(Read(m.delta, next))
            && EventAt(d, next, base, decoder)
            == if m.event.Channel? && printed == Some(m.event.status) && decoder == None
               then Err(At(base + next, RunningStatusMissing))
               else Ok(Read(m.event, next + |EventBytes(m.event, printed)|))
  {
    hide VlqAt, EventAt, EventBytes;
    StandsSplit(d, p, Vlq(m.delta), EventBytes(m.event, printed));
    VlqRoundTrip(d, p, base, m.delta);
    if m.event.Channel? {
      DecodeChannel(d, p + |Vlq(m.delta)|, base, m.event, printed, decoder);
    } else {
      DecodeMeta(d, p + |Vlq(m.delta)|, base, m.event, printed, decoder);
    }
  }

  /**
    Printed messages decode to themselves exactly when statuses are shown again
    after meta events; otherwise the decoder misses a running status.
   */
  lemma {:induction false} PrintedDecodes(d: Bytes, p: nat, base: nat, ms: seq<PrintableMessage>, printer: Running, decoder: Running,
                                          explicit: bool)
    requires StandsAt(d, p, Print(ms, printer, explicit)) && p + |Print(ms, printer, explicit)| == |d|
    requires explicit || decoder == None || decoder == printer
    ensures var t := TraceFrom(d, p, base, decoder);
            if explicit || StatusResent(ms, printer, decoder) then Decodes(t, ms)
            else !Decodes(t, ms) && FirstError(t) == Some(RunningStatusMissing)
    decreases |ms|
  {
    hide VlqAt, EventAt, EventBytes, Vlq;
    if ms != [] {
      var m, shown := ms[0], if explicit then None else printer;
      var rest := Print(ms[1..], PrinterAfter(m.event, printer), explicit);
      StandsSplit(d, p, Vlq(m.delta) + EventBytes(m.event, shown), rest);
      DecodeOne(d, p, base, m, shown, decoder);
      if !(m.event.Channel? && shown == Some(m.event.status) && decoder == None) {
        var next := p + |Vlq(m.delta)| + |EventBytes(m.event, shown)|;
        PrintedDecodes(d, next, base, ms[1..], PrinterAfter(m.event, printer), RunningAfter(m.event), explicit);
        ReadsOne(d, p, base, m, decoder, next);
      }
    }
  }

  /** The trace continues behind a message that decodes. */
  lemma ReadsOne(d: Bytes, p: nat, base: nat, m: Message, decoder: Running, next: nat)
    requires p < |d| && VlqAt(d, p, base).Ok? && VlqAt(d, p, base).value.value == m.delta
    requires EventAt(d, VlqAt(d, p, base).value.next, base, decoder) == Ok(Read(m.event, next))
    ensures var t := TraceFrom(d, p, base, decoder);
            && t.Step? && Message(t.head.delta, t.head.event) == m && (t.head.remaining == 0 <==> t.rest.End?)
            && t.rest == TraceFrom(d, next, base, RunningAfter(m.event))
  {
    hide VlqAt, EventAt;
  }

  /** Omitting repeated statuses and printing every status decode to the same messages. */
  lemma CompressionPreservesMeaning(ms: seq<PrintableMessage>, base: nat)
    ensures Decodes(TraceOf(Print(ms, None, true), base), ms)
    ensures Decodes(TraceOf(Print(ms, None, false), base), ms) <==> StatusResent(ms, None, None)
    ensures (forall m :: m in ms ==> m.event.Channel?) ==> Decodes(TraceOf(Print(ms, None, false), base), ms)
  {
    hide TraceFrom, Decodes;
    var plain, short := Print(ms, None, true), Print(ms, None, false);
    assert StandsAt(plain, 0, plain) && StandsAt(short, 0, short);
    PrintedDecodes(plain, 0, base, ms, None, None, true);
    PrintedDecodes(short, 0, base, ms, None, None, false);
    if forall m :: m in ms ==> m.event.Channel? {
      ChannelsResent(ms, None);
    }
  }

  lemma {:induction false} ChannelsResent(ms: seq<Message>, running: Running)
    requires forall m :: m in ms ==> m.event.Channel?
    ensures StatusResent(ms, running, running)
  {
    if ms != [] {
      ChannelsResent(ms[1..], RunningAfter(ms[0].event));
    }
  }

  /** The same messages build the same arena records, or overflow the arena alike. */
  lemma {:induction false} SameRecords(t: Trace, u: Trace, ms: seq<Message>, a: Arena)
    requires Decodes(t, ms) && Decodes(u, ms)
    ensures match BuildTrace(t, a)
            case Ok(built) => BuildTrace(u, a) == Ok(built)
            case Err(e) => e.kind.SizeOverflow? && BuildTrace(u, a).Err? && BuildTrace(u, a).error.kind.SizeOverflow?
    decreases t
  {
    if t.Step? {
      var built := BuildEvent(a, t.head.delta, t.head.event, t.head.end);
      if built.Ok? {
        SameRecords(t.rest, u.rest, ms[1..], built.value);
      }
    }
  }
}
