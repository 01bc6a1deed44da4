/**
  The concrete store of open notes: one packed primary slot per channel and
  pitch, and linked overflow queues in a shared arena, recycled through a free
  list, with all-ones sentinels. It is proved to be one queue per key.
 */
module OpenTable {
  import opened Base
  import opened TrackModel
  import TrackTotals

  const NO_GROUP: u16 := U16_MAX
  const NO_OPEN_NOTE: u32 := U32_MAX
  const NO_OVERFLOW_QUEUE: u16 := U16_MAX

  datatype OverflowNote = OverflowNote(group: u16, note: u32, next: u32)
  datatype OverflowQueue = OverflowQueue(head: u32, tail: u32)

  datatype Table = Table(
    openGroups: seq<u16>,
    openNoteStates: seq<u64>,
    overflowQueuesByKey: seq<u16>,
    overflowNotes: seq<OverflowNote>,
    overflowQueues: seq<OverflowQueue>,
    freeOverflowQueues: seq<u16>)

  // ----- Packed primary slots

  /** The start tick in the high half, if it fits below the sentinel, and the note index in the low half. */
  function PackOpenNoteState(note: u32, time: u64): u64 {
    var start: u32 := if time < U32_MAX then time else U32_MAX;
    start as int * 0x1_0000_0000 + note
  }

  function OpenNoteIndex(state: u64): u32 {
    state % 0x1_0000_0000
  }

  function OpenNoteStart(state: u64): Option<u64> {
    var start := state / 0x1_0000_0000;
    if start != U32_MAX then Some(start) else None
  }

  /** Unpacking a slot gives its note, and its start unless that must be looked up in the row. */
  lemma PackRoundTrip(note: u32, time: u64)
    ensures OpenNoteIndex(PackOpenNoteState(note, time)) == note
    ensures OpenNoteStart(PackOpenNoteState(note, time)) == if time < U32_MAX then Some(time) else None
  {}

  // ----- What the links mean

  /**
    Witnesses of the linking: the arena nodes queued behind each primary slot,
    the key each node was allocated for, and the key each queue serves, if any.
   */
  datatype Links = Links(chains: seq<seq<nat>>, owners: seq<nat>, holders: seq<Option<nat>>)

  /** The i-th node behind key `k` holds the entry after the i-th and points to the next node. */
  ghost predicate NodeHolds(t: Table, l: Links, k: nat, i: nat, queue: seq<NoteRef>)
    requires k < |l.chains| && i < |l.chains[k]| && i + 1 < |queue| && |l.owners| == |t.overflowNotes|
  {
    var chain, r := l.chains[k], queue[i + 1];
    && r.group < KEYS
    && chain[i] < |t.overflowNotes|
    && l.owners[chain[i]] == k
    && t.overflowNotes[chain[i]].group == r.group
    && t.overflowNotes[chain[i]].note == r.note
    && t.overflowNotes[chain[i]].next == (if i + 1 < |chain| then chain[i + 1] else NO_OPEN_NOTE)
    && (i + 1 < |chain| ==> chain[i] < chain[i + 1])
  }

  ghost predicate QueueEnds(q: OverflowQueue, chain: seq<nat>) {
    if chain == [] then q == OverflowQueue(NO_OPEN_NOTE, NO_OPEN_NOTE)
    else q.head == chain[0] && q.tail == chain[|chain| - 1]
  }

  /** Key `k` stores exactly `queue`: the oldest in the primary slot, the rest linked. */
  ghost predicate KeyHolds(t: Table, l: Links, k: nat, queue: seq<NoteRef>)
    requires Sized(t, l) && k < KEYS
  {
    var q := t.overflowQueuesByKey[k];
    && |l.chains[k]| == (if queue == [] then 0 else |queue| - 1)
    && (if queue == [] then t.openGroups[k] == NO_GROUP && t.openNoteStates[k] == 0 && q == NO_OVERFLOW_QUEUE
        else
          && queue[0].group < KEYS && t.openGroups[k] == queue[0].group
          && queue[0].note <= U32_MAX && t.openNoteStates[k] == PackOpenNoteState(queue[0].note, queue[0].time))
    && (forall i :: 0 <= i < |l.chains[k]| ==> NodeHolds(t, l, k, i, queue))
    && (q == NO_OVERFLOW_QUEUE ==> l.chains[k] == [])
    && (q != NO_OVERFLOW_QUEUE ==>
          q < |t.overflowQueues| && l.holders[q] == Some(k) && QueueEnds(t.overflowQueues[q], l.chains[k]))
  }

  ghost predicate Sized(t: Table, l: Links) {
    && |t.openGroups| == |t.openNoteStates| == |t.overflowQueuesByKey| == |l.chains| == KEYS
    && |l.owners| == |t.overflowNotes| <= U32_MAX
    && |l.holders| == |t.overflowQueues| <= KEYS
  }

  /** Queues not serving a key are empty and on the free list, once each. */
  ghost predicate FreeListed(t: Table, l: Links)
    requires Sized(t, l)
  {
    && (forall i :: 0 <= i < |t.freeOverflowQueues| ==>
          var q := t.freeOverflowQueues[i];
          q < |t.overflowQueues| && l.holders[q] == None && t.overflowQueues[q] == OverflowQueue(NO_OPEN_NOTE, NO_OPEN_NOTE))
    && (forall i, j :: 0 <= i < j < |t.freeOverflowQueues| ==> t.freeOverflowQueues[i] != t.freeOverflowQueues[j])
    && (forall q :: 0 <= q < |l.holders| ==>
          match l.holders[q]
          case None => q in t.freeOverflowQueues
          case Some(k) => k < KEYS && t.overflowQueuesByKey[k] == q)
  }

  /** The table stores one queue per key: `open`. */
  ghost predicate Linked(t: Table, l: Links, open: seq<seq<NoteRef>>) {
    && Sized(t, l) && |open| == KEYS
    && FreeListed(t, l)
    && forall k :: 0 <= k < KEYS ==> KeyHolds(t, l, k, open[k])
  }

  // ----- The operations

  function EmptyTable(): Table {
    Table(seq(KEYS, _ => NO_GROUP), seq(KEYS, _ => 0), seq(KEYS, _ => NO_OVERFLOW_QUEUE), [], [], [])
  }

  function EmptyLinks(): Links {
    Links(seq(KEYS, _ => []), [], [])
  }

  lemma EmptyTableLinked()
    ensures Linked(EmptyTable(), EmptyLinks(), EmptyModel().open)
  {}

  /** A note for a free key goes into the primary slot. */
  function SetPrimary(t: Table, k: nat, group: u16, note: u32, time: u64): Table
    requires k < |t.openGroups| == |t.openNoteStates|
  {
    t.(openGroups := t.openGroups[k := group], openNoteStates := t.openNoteStates[k := PackOpenNoteState(note, time)])
  }

  lemma SetPrimaryLinked(t: Table, l: Links, open: seq<seq<NoteRef>>, k: nat, r: NoteRef)
    requires Linked(t, l, open) && k < KEYS && open[k] == [] && r.group < KEYS && r.note <= U32_MAX
    ensures Linked(SetPrimary(t, k, r.group, r.note, r.time), l, open[k := [r]])
  {
    hide QueueEnds, PackOpenNoteState;
    var t', open' := SetPrimary(t, k, r.group, r.note, r.time), open[k := [r]];
    forall j | 0 <= j < KEYS ensures KeyHolds(t', l, j, open'[j]) {
      assert KeyHolds(t, l, j, open[j]);
      forall i | 0 <= i < |l.chains[j]| ensures NodeHolds(t', l, j, i, open'[j]) {
        SameNodes(t, l, t', l, j, i, open[j]);
      }
    }
  }

  /** A new arena node, not linked yet. */
  function PushNode(t: Table, group: u16, note: u32): Table {
    t.(overflowNotes := t.overflowNotes + [OverflowNote(group, note, NO_OPEN_NOTE)])
  }

  lemma PushNodeLinked(t: Table, l: Links, open: seq<seq<NoteRef>>, k: nat, group: u16, note: u32)
    requires Linked(t, l, open) && |t.overflowNotes| < U32_MAX
    ensures Linked(PushNode(t, group, note), l.(owners := l.owners + [k]), open)
  {
    hide QueueEnds, PackOpenNoteState;
    var t', l' := PushNode(t, group, note), l.(owners := l.owners + [k]);
    forall j | 0 <= j < KEYS ensures KeyHolds(t', l', j, open[j]) {
      assert KeyHolds(t, l, j, open[j]);
      forall i | 0 <= i < |l.chains[j]| ensures NodeHolds(t', l', j, i, open[j]) {
        assert NodeHolds(t, l, j, i, open[j]);
      }
    }
  }

  /** The queue of a key: its own, the last freed one, or a new one. */
  function EnsureQueue(t: Table, k: nat): (Table, u16)
    requires k < |t.overflowQueuesByKey| && |t.overflowQueues| <= U16_MAX
  {
    var current := t.overflowQueuesByKey[k];
    if current != NO_OVERFLOW_QUEUE then (t, current)
    else if t.freeOverflowQueues != [] then
      var last := |t.freeOverflowQueues| - 1;
      var index := t.freeOverflowQueues[last];
      (t.(freeOverflowQueues := t.freeOverflowQueues[..last],
          overflowQueuesByKey := t.overflowQueuesByKey[k := index]), index)
    else
      var index := |t.overflowQueues|;
      (t.(overflowQueues := t.overflowQueues + [OverflowQueue(NO_OPEN_NOTE, NO_OPEN_NOTE)],
          overflowQueuesByKey := t.overflowQueuesByKey[k := index]), index)
  }

  /** With an empty free list every queue serves a different key, so fewer than 2048 exist while one key has none. */
  lemma QueuesBounded(t: Table, l: Links, open: seq<seq<NoteRef>>, k: nat)
    requires Linked(t, l, open) && k < KEYS
    requires t.overflowQueuesByKey[k] == NO_OVERFLOW_QUEUE && t.freeOverflowQueues == []
    ensures |t.overflowQueues| < KEYS
  {
    hide KeyHolds;
    var keys := seq(|l.holders|, q requires 0 <= q < |l.holders| => l.holders[q].value) + [k];
    TrackTotals.Pigeonhole(keys, KEYS);
  }

  lemma EnsureQueueLinked(t: Table, l: Links, open: seq<seq<NoteRef>>, k: nat) returns (l': Links)
    requires Linked(t, l, open) && k < KEYS && open[k] != []
    ensures var (t', q) := EnsureQueue(t, k);
            && Linked(t', l', open) && l'.chains == l.chains && l'.owners == l.owners
            && t'.overflowQueuesByKey[k] == q != NO_OVERFLOW_QUEUE && t'.overflowNotes == t.overflowNotes
  {
    hide QueueEnds, PackOpenNoteState, NodeHolds;
    var (t', q) := EnsureQueue(t, k);
    assert KeyHolds(t, l, k, open[k]);
    if t.overflowQueuesByKey[k] != NO_OVERFLOW_QUEUE {
      l' := l;
    } else {
      if t.freeOverflowQueues != [] {
        l' := l.(holders := l.holders[q := Some(k)]);
      } else {
        QueuesBounded(t, l, open, k);
        l' := l.(holders := l.holders + [Some(k)]);
      }
      EmptyEnds();
      forall j | 0 <= j < KEYS ensures KeyHolds(t', l', j, open[j]) {
        assert KeyHolds(t, l, j, open[j]);
        forall i | 0 <= i < |l.chains[j]| ensures NodeHolds(t', l', j, i, open[j]) {
          SameNodes(t, l, t', l', j, i, open[j]);
        }
      }
    }
  }

  lemma EmptyEnds()
    ensures QueueEnds(OverflowQueue(NO_OPEN_NOTE, NO_OPEN_NOTE), [])
  {}

  lemma SameNodes(t: Table, l: Links, t': Table, l': Links, k: nat, i: nat, queue: seq<NoteRef>)
    requires k < |l.chains| && i < |l.chains[k]| && i + 1 < |queue| && |l.owners| == |t.overflowNotes|
    requires NodeHolds(t, l, k, i, queue)
    requires t'.overflowNotes == t.overflowNotes && l'.chains == l.chains && l'.owners == l.owners
    ensures NodeHolds(t', l', k, i, queue)
  {}

  /** Links a pushed node behind the last entry of a key's queue. */
  function LinkNode(t: Table, q: u16, index: u32): Table
    requires q < |t.overflowQueues|
    requires var tail := t.overflowQueues[q].tail; tail != NO_OPEN_NOTE ==> tail < |t.overflowNotes|
  {
    var queue := t.overflowQueues[q];
    var linked :=
      if queue.tail == NO_OPEN_NOTE then t.(overflowQueues := t.overflowQueues[q := OverflowQueue(index, index)])
      else t.(overflowNotes := t.overflowNotes[queue.tail := t.overflowNotes[queue.tail].(next := index)],
              overflowQueues := t.overflowQueues[q := queue.(tail := index)]);
    linked
  }

  /** A pushed node that no chain contains yet. */
  ghost predicate Loose(t: Table, l: Links, k: nat, index: u32, r: NoteRef)
    requires Sized(t, l) && k < KEYS
  {
    && index < |t.overflowNotes| && l.owners[index] == k
    && r.group < KEYS && t.overflowNotes[index].group == r.group && t.overflowNotes[index].note == r.note
    && t.overflowNotes[index].next == NO_OPEN_NOTE
    && forall i :: 0 <= i < |l.chains[k]| ==> l.chains[k][i] < index
  }

  /** A node just pushed is behind every node of its key's chain, and stays so while a queue is found for it. */
  lemma PushNodeLoose(t: Table, l: Links, open: seq<seq<NoteRef>>, k: nat, r: NoteRef, t': Table, l': Links)
    requires Linked(t, l, open) && k < KEYS && |t.overflowNotes| < U32_MAX && r.group < KEYS && r.note <= U32_MAX
    requires Sized(t', l') && t'.overflowNotes == PushNode(t, r.group, r.note).overflowNotes
    requires l'.chains == l.chains && l'.owners == l.owners + [k]
    ensures Loose(t', l', k, |t.overflowNotes|, r)
  {
    assert KeyHolds(t, l, k, open[k]);
    forall i | 0 <= i < |l.chains[k]| ensures l.chains[k][i] < |t.overflowNotes| {
      assert NodeHolds(t, l, k, i, open[k]);
    }
  }

  lemma QueueTail(t: Table, l: Links, open: seq<seq<NoteRef>>, k: nat)
    requires Linked(t, l, open) && k < KEYS && t.overflowQueuesByKey[k] != NO_OVERFLOW_QUEUE
    ensures var q := t.overflowQueuesByKey[k];
            && open[k] != [] && q < |t.overflowQueues| && l.holders[q] == Some(k)
            && QueueEnds(t.overflowQueues[q], l.chains[k])
            && (l.chains[k] == [] <==> t.overflowQueues[q].tail == NO_OPEN_NOTE)
            && (l.chains[k] == [] <==> t.overflowQueues[q].head == NO_OPEN_NOTE)
            && forall i :: 0 <= i < |l.chains[k]| ==> l.chains[k][i] < |t.overflowNotes|
  {
    assert KeyHolds(t, l, k, open[k]);
    forall i | 0 <= i < |l.chains[k]| ensures l.chains[k][i] < |t.overflowNotes| {
      assert NodeHolds(t, l, k, i, open[k]);
    }
  }

  /** Chains run through the arena in push order, so they have no cycles. */
  lemma {:induction false} ChainAscends(t: Table, l: Links, k: nat, queue: seq<NoteRef>, i: nat, j: nat)
    requires Sized(t, l) && k < KEYS && KeyHolds(t, l, k, queue) && i < j < |l.chains[k]|
    ensures l.chains[k][i] < l.chains[k][j]
    decreases j - i
  {
    assert NodeHolds(t, l, k, j - 1, queue);
    if i < j - 1 {
      ChainAscends(t, l, k, queue, i, j - 1);
    }
  }

  lemma LinkNodeLinked(t: Table, l: Links, open: seq<seq<NoteRef>>, k: nat, index: u32, r: NoteRef)
    requires Linked(t, l, open) && k < KEYS && t.overflowQueuesByKey[k] != NO_OVERFLOW_QUEUE && Loose(t, l, k, index, r)
    ensures var q := t.overflowQueuesByKey[k];
            && q < |t.overflowQueues| && (t.overflowQueues[q].tail != NO_OPEN_NOTE ==> t.overflowQueues[q].tail < |t.overflowNotes|)
            && Linked(LinkNode(t, q, index), l.(chains := l.chains[k := l.chains[k] + [index]]), open[k := open[k] + [r]])
  {
    hide PackOpenNoteState;
    QueueTail(t, l, open, k);
    var q := t.overflowQueuesByKey[k];
    if l.chains[k] != [] {
      assert KeyHolds(t, l, k, open[k]) && NodeHolds(t, l, k, |l.chains[k]| - 1, open[k]);
    }
    var t', l', open' := LinkNode(t, q, index), l.(chains := l.chains[k := l.chains[k] + [index]]), open[k := open[k] + [r]];
    forall j | 0 <= j < KEYS ensures KeyHolds(t', l', j, open'[j]) {
      assert KeyHolds(t, l, j, open[j]);
      forall i | 0 <= i < |l'.chains[j]| ensures NodeHolds(t', l', j, i, open'[j]) {
        if i < |l.chains[j]| {
          assert NodeHolds(t, l, j, i, open[j]);
          if j == k && i < |l.chains[k]| - 1 {
            ChainAscends(t, l, k, open[k], i, |l.chains[k]| - 1);
          }
        }
      }
    }
  }

  /** After the primary note of a key is closed: promote the next entry, or free the key and its empty queue. */
  function Dequeued(t: Table, k: nat, nextTime: u64): Table
    requires k < KEYS && |t.openGroups| == |t.openNoteStates| == |t.overflowQueuesByKey| == KEYS
    requires var q := t.overflowQueuesByKey[k];
             q != NO_OVERFLOW_QUEUE ==>
               && q < |t.overflowQueues|
               && (t.overflowQueues[q].head != NO_OPEN_NOTE ==> t.overflowQueues[q].head < |t.overflowNotes|)
  {
    var q := t.overflowQueuesByKey[k];
    if q == NO_OVERFLOW_QUEUE || t.overflowQueues[q].head == NO_OPEN_NOTE then
      var cleared := t.(openGroups := t.openGroups[k := NO_GROUP], openNoteStates := t.openNoteStates[k := 0]);
      if q == NO_OVERFLOW_QUEUE then cleared
      else cleared.(overflowQueuesByKey := t.overflowQueuesByKey[k := NO_OVERFLOW_QUEUE],
                    freeOverflowQueues := t.freeOverflowQueues + [q])
    else
      var next := t.overflowNotes[t.overflowQueues[q].head];
      SetPrimary(t, k, next.group, next.note, nextTime).(
        overflowQueues := t.overflowQueues[q := OverflowQueue(
          next.next, if next.next == NO_OPEN_NOTE then NO_OPEN_NOTE else t.overflowQueues[q].tail)])
  }

  /** The last entry of a key leaves the key free, and its empty queue, if any, goes to the free list. */
  lemma AdvanceLast(t: Table, l: Links, open: seq<seq<NoteRef>>, k: nat, nextTime: u64) returns (l': Links)
    requires Linked(t, l, open) && k < KEYS && open[k] != [] && l.chains[k] == []
    ensures t.overflowQueuesByKey[k] != NO_OVERFLOW_QUEUE ==>
              var q := t.overflowQueuesByKey[k];
              q < |t.overflowQueues| && t.overflowQueues[q].head == NO_OPEN_NOTE
    ensures Linked(Dequeued(t, k, nextTime), l', open[k := open[k][1..]])
  {
    hide PackOpenNoteState, NodeHolds, QueueEnds;
    assert KeyHolds(t, l, k, open[k]);
    var q, open' := t.overflowQueuesByKey[k], open[k := open[k][1..]];
    l' := l;
    if q != NO_OVERFLOW_QUEUE {
      QueueTail(t, l, open, k);
      NoEnds(t.overflowQueues[q]);
      l' := l.(holders := l.holders[q := None]);
    }
    var t' := Dequeued(t, k, nextTime);
    forall j | 0 <= j < KEYS ensures KeyHolds(t', l', j, open'[j]) {
      assert KeyHolds(t, l, j, open[j]);
      forall i | 0 <= i < |l.chains[j]| ensures NodeHolds(t', l', j, i, open'[j]) {
        SameNodes(t, l, t', l', j, i, open[j]);
      }
    }
  }

  lemma NoEnds(q: OverflowQueue)
    requires QueueEnds(q, [])
    ensures q == OverflowQueue(NO_OPEN_NOTE, NO_OPEN_NOTE)
  {}

  /** An entry with successors hands the primary slot to the next one and unlinks its node. */
  lemma AdvanceNext(t: Table, l: Links, open: seq<seq<NoteRef>>, k: nat)
    requires Linked(t, l, open) && k < KEYS && open[k] != [] && l.chains[k] != []
    ensures |open[k]| > 1
    ensures var q := t.overflowQueuesByKey[k];
            && q != NO_OVERFLOW_QUEUE && q < |t.overflowQueues|
            && NO_OPEN_NOTE != t.overflowQueues[q].head < |t.overflowNotes|
    ensures Linked(Dequeued(t, k, open[k][1].time), l.(chains := l.chains[k := l.chains[k][1..]]), open[k := open[k][1..]])
  {
    hide PackOpenNoteState;
    assert KeyHolds(t, l, k, open[k]);
    QueueTail(t, l, open, k);
    var chain := l.chains[k];
    assert NodeHolds(t, l, k, 0, open[k]);
    var t', l', open' := Dequeued(t, k, open[k][1].time), l.(chains := l.chains[k := chain[1..]]), open[k := open[k][1..]];
    forall j | 0 <= j < KEYS ensures KeyHolds(t', l', j, open'[j]) {
      assert KeyHolds(t, l, j, open[j]);
      forall i | 0 <= i < |l'.chains[j]| ensures NodeHolds(t', l', j, i, open'[j]) {
        if j == k {
          assert NodeHolds(t, l, k, i + 1, open[k]);
        } else {
          assert NodeHolds(t, l, j, i, open[j]);
        }
      }
    }
  }

  /** Advancing a key drops exactly the head of its queue and changes no other queue. */
  lemma AdvanceLinked(t: Table, l: Links, open: seq<seq<NoteRef>>, k: nat, nextTime: u64) returns (l': Links)
    requires Linked(t, l, open) && k < KEYS && open[k] != []
    requires |open[k]| > 1 ==> nextTime == open[k][1].time
    ensures var q := t.overflowQueuesByKey[k];
            q != NO_OVERFLOW_QUEUE ==>
              && q < |t.overflowQueues|
              && (t.overflowQueues[q].head != NO_OPEN_NOTE ==> t.overflowQueues[q].head < |t.overflowNotes|)
    ensures Linked(Dequeued(t, k, nextTime), l', open[k := open[k][1..]])
  {
    hide KeyHolds, FreeListed, Dequeued;
    if l.chains[k] == [] {
      l' := AdvanceLast(t, l, open, k, nextTime);
    } else {
      AdvanceNext(t, l, open, k);
      l' := l.(chains := l.chains[k := l.chains[k][1..]]);
    }
  }

  /** The primary slot of a key, unpacked. */
  lemma PrimaryOf(t: Table, l: Links, open: seq<seq<NoteRef>>, k: nat)
    requires Linked(t, l, open) && k < KEYS
    ensures (open[k] == []) == (t.openGroups[k] == NO_GROUP)
    ensures open[k] != [] ==>
              var r := open[k][0];
              && r.group < KEYS && r.group == t.openGroups[k] && r.note == OpenNoteIndex(t.openNoteStates[k])
              && OpenNoteStart(t.openNoteStates[k]) == if r.time < U32_MAX then Some(r.time) else None
  {
    assert KeyHolds(t, l, k, open[k]);
    if open[k] != [] {
      PackRoundTrip(open[k][0].note, open[k][0].time);
    }
  }

  /** What follows the primary note of a key, if anything. */
  lemma SecondOf(t: Table, l: Links, open: seq<seq<NoteRef>>, k: nat)
    requires Linked(t, l, open) && k < KEYS && open[k] != []
    ensures var q := t.overflowQueuesByKey[k];
            q != NO_OVERFLOW_QUEUE ==>
              && q < |t.overflowQueues|
              && (|open[k]| > 1 <==> t.overflowQueues[q].head != NO_OPEN_NOTE)
              && (|open[k]| > 1 ==>
                    && t.overflowQueues[q].head < |t.overflowNotes|
                    && t.overflowNotes[t.overflowQueues[q].head].group == open[k][1].group
                    && t.overflowNotes[t.overflowQueues[q].head].note == open[k][1].note)
    ensures t.overflowQueuesByKey[k] == NO_OVERFLOW_QUEUE ==> |open[k]| == 1
  {
    assert KeyHolds(t, l, k, open[k]);
    if t.overflowQueuesByKey[k] != NO_OVERFLOW_QUEUE {
      QueueTail(t, l, open, k);
      if |open[k]| > 1 {
        assert NodeHolds(t, l, k, 0, open[k]);
      }
    }
  }
}
