/** What the counters of a scan count, said about the decoded events alone. */
module ScanCounts {
  import opened Base
  import opened Smf
  import opened Wire
  import opened Scan

  /** The decoded events of a file, track after track. */
  function AllEvents(c: Chunks): seq<TimedEvent> {
    if c.Chunk? then EventsOf(TraceOf(c.body, c.base)) + AllEvents(c.rest) else []
  }

  /** How many events satisfy a property. */
  function CountOf(es: seq<TimedEvent>, p: Event -> bool): nat {
    if es == [] then 0 else (if p(es[0].event) then 1 else 0) + CountOf(es[1..], p)
  }

  const CHANNEL: Event -> bool := (e: Event) => e.Channel?
  const META: Event -> bool := (e: Event) => e.Meta?
  const SYSEX: Event -> bool := (e: Event) => e.SysEx?

  function PayloadSum(es: seq<TimedEvent>): nat {
    if es == [] then 0
    else
      (match es[0].event
       case Channel(_, _, _) => 0
       case Meta(_, payload) => |payload|
       case SysEx(_, payload) => |payload|) + PayloadSum(es[1..])
  }

  /** The largest of some deltas and of what was largest before. */
  predicate Largest(es: seq<TimedEvent>, before: nat, most: nat) {
    && before <= most && (forall i :: 0 <= i < |es| ==> es[i].delta <= most)
    && (most == before || exists i :: 0 <= i < |es| && es[i].delta == most)
  }

  /** Between two summaries exactly these events were counted. */
  ghost predicate CountedBetween(s: Summary, t: Summary, es: seq<TimedEvent>) {
    && t.header == s.header
    && t.events == s.events + |es|
    && t.channelEvents == s.channelEvents + CountOf(es, CHANNEL)
    && t.metaEvents == s.metaEvents + CountOf(es, META)
    && t.sysexEvents == s.sysexEvents + CountOf(es, SYSEX)
    && t.payloadBytes == s.payloadBytes + PayloadSum(es)
    && Largest(es, s.maxDeltaTicks, t.maxDeltaTicks)
  }

  lemma LargestPrepend(e: TimedEvent, es: seq<TimedEvent>, before: nat, most: nat)
    requires Largest(es, Max(before, e.delta), most)
    ensures Largest([e] + es, before, most)
  {
    var all := [e] + es;
    assert all[0] == e;
    if most != before && most != e.delta {
      var i :| 0 <= i < |es| && es[i].delta == most;
      assert all[i + 1].delta == most;
    }
  }

  lemma {:induction false} TraceCounted(t: Trace, s: Summary)
    requires ScanTrace(t, s).Ok?
    ensures CountedBetween(s, ScanTrace(t, s).value, EventsOf(t))
  {
    hide Largest;
    if t.Step? {
      var next := Tallied(s, t.head.delta, t.head.event);
      TraceCounted(t.rest, next);
      LargestPrepend(t.head, EventsOf(t.rest), s.maxDeltaTicks, ScanTrace(t, s).value.maxDeltaTicks);
      assert EventsOf(t)[0] == t.head && EventsOf(t)[1..] == EventsOf(t.rest);
    } else {
      NothingLargest(s.maxDeltaTicks);
    }
  }

  lemma NothingLargest(before: nat)
    ensures Largest([], before, before)
  {}

  lemma {:induction false} CountOfConcat(a: seq<TimedEvent>, b: seq<TimedEvent>, p: Event -> bool)
    ensures CountOf(a + b, p) == CountOf(a, p) + CountOf(b, p)
  {
    if a == [] {
      assert a + b == b;
    } else {
      CountOfConcat(a[1..], b, p);
      assert (a + b)[1..] == a[1..] + b;
    }
  }

  lemma {:induction false} PayloadSumConcat(a: seq<TimedEvent>, b: seq<TimedEvent>)
    ensures PayloadSum(a + b) == PayloadSum(a) + PayloadSum(b)
  {
    if a == [] {
      assert a + b == b;
    } else {
      PayloadSumConcat(a[1..], b);
      assert (a + b)[1..] == a[1..] + b;
    }
  }

  lemma LargestConcat(a: seq<TimedEvent>, b: seq<TimedEvent>, before: nat, middle: nat, most: nat)
    requires Largest(a, before, middle) && Largest(b, middle, most)
    ensures Largest(a + b, before, most)
  {
    if most != before {
      if most == middle {
        var i :| 0 <= i < |a| && a[i].delta == most;
        assert (a + b)[i].delta == most;
      } else {
        var i :| 0 <= i < |b| && b[i].delta == most;
        assert (a + b)[|a| + i].delta == most;
      }
    }
  }

  lemma CountedConcat(s: Summary, t: Summary, u: Summary, a: seq<TimedEvent>, b: seq<TimedEvent>)
    requires CountedBetween(s, t, a) && CountedBetween(t, u, b)
    ensures CountedBetween(s, u, a + b)
  {
    hide Largest, CountOf, PayloadSum;
    CountOfConcat(a, b, CHANNEL);
    CountOfConcat(a, b, META);
    CountOfConcat(a, b, SYSEX);
    PayloadSumConcat(a, b);
    LargestConcat(a, b, s.maxDeltaTicks, t.maxDeltaTicks, u.maxDeltaTicks);
  }

  lemma {:induction false} ChunksCounted(c: Chunks, s: Summary)
    requires ScanChunks(c, s).Ok?
    ensures CountedBetween(s, ScanChunks(c, s).value, AllEvents(c))
  {
    hide TraceOf, ScanTrace, EventsOf, CountOf, PayloadSum, Largest, CountedBetween;
    if c.Chunk? {
      var t := TraceOf(c.body, c.base);
      TraceCounted(t, s);
      ChunksCounted(c.rest, ScanTrace(t, s).value);
      CountedConcat(s, ScanTrace(t, s).value, ScanChunks(c, s).value, EventsOf(t), AllEvents(c.rest));
    } else {
      NothingCounted(s, ScanChunks(c, s).value);
    }
  }

  lemma NothingCounted(s: Summary, t: Summary)
    requires t == s.(bytesConsumed := t.bytesConsumed, trailingBytes := t.trailingBytes)
    ensures CountedBetween(s, t, [])
  {}

  /**
    Every scanned file: the event counters are the numbers of its events and of
    its channel, meta and system events; the payload counter is the sum of their
    payload lengths; and the largest delta is at least every delta and is that of
    some event, or 0.
   */
  lemma ScanCountsEvents(data: Bytes)
    requires ScanFile(data).Ok?
    ensures HeaderAt(data).Ok?
    ensures var s, es := ScanFile(data).value, AllEvents(ChunksOf(data));
            && s.events == |es| && s.channelEvents == CountOf(es, CHANNEL) && s.metaEvents == CountOf(es, META)
            && s.sysexEvents == CountOf(es, SYSEX) && s.payloadBytes == PayloadSum(es)
            && Largest(es, 0, s.maxDeltaTicks)
  {
    hide HeaderAt, ChunksFrom, ScanChunks, CountOf, PayloadSum, Largest;
    ChunksCounted(ChunksOf(data), Started(HeaderAt(data).value.value));
  }
}
