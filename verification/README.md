# Verification of the miso-midi decoders, printer and score encoding

This project models `miso-midi-core`, a decoder family for Standard MIDI Files 1.0 (RP-001), together with the
corpus generator and the canonical score encoder that its benchmarks rely on, and proves what they promise for every
input.

## How it is built

* `Wire.dfy` is the wire grammar as pure functions: variable-length quantities, events under running status, track
  traces, chunks, the header. It is the reference that every decoding loop is proved against. `Cursors.dfy` is the
  crate's cursor, a class whose reads advance `position` exactly as the grammar says. `WireBytes.dfy` says which bytes
  spell what the grammar reads, over literal status bytes.
* `Scan.dfy`, `ArenaParser.dfy` and `ScoreParser.dfy` are the three decoders as the crate runs them: loops over
  cursors, counters and mutable arenas. Their methods are equal, error for error and offset for offset, to folds over
  the grammar (`ScanFile`, `ParseFile`, `ScoreFile`). Theorems about the decoders are theorems about these folds.
* `NoteColumns.dfy`, `OpenTable.dfy`, `TrackBuilder.dfy` and `ScoreArena.dfy` are the score builder's concrete state:
  packed rows that widen, primary slots with linked and recycled overflow queues, group tables and program bit sets,
  growing columns. `TrackModel.dfy` is the simple form it refines (one queue per channel and pitch, one group per
  channel and program), and `TrackInvariants`, `TrackRuns`, `TrackGroups`, `TrackRows`, `TrackPlacement`, `TrackNotes`
  and `TrackTotals` prove what every run of that form keeps. `ScoreGrammar.dfy` puts a whole score parse together, for
  every policy (no limits, or limits) and every grammar (legacy, compatible, strict).
* `ScoreEmission`, `ScoreBudgets`, `ScoreModes`, `ScoreBounds`, `ScoreTheorems`, `ScoreFaults`, `ScorePlacement`,
  `ScoreMetas`, `TrackSpelling` and `ScoreFiles` hold the results about whole score parses, and `Witnesses` the inputs
  at which decoders differ or rows are lost. `Utf8.dfy` and `Utf8Text.dfy` give score text two independent definitions
  that are proved to agree, and `Utf8Errors.dfy` says what is replaced in malformed text.
* `VlqCodec`, `Printer`, `Corpus`, `CorpusDecoding`, `CorpusScores`, `CorpusTheorems`, `CorpusArena` and `Overlap` are
  the corpus generator and its round trips through all decoders. `ScoreContract`, `ScoreEncoder` and
  `CanonicalExample` are the canonical encoding.

## What the proofs found

* No input can make `parse_score_smf` report `TickOverflow`: a delta is below 2^28 and a track payload below 2^32 bytes,
  so an absolute tick stays below 2^60, and the pedal's subtraction never goes negative.
* The `SizeOverflow` branches of `create_group`, `add_note`, `NoteColumnsBuilder::push` and `ensure_overflow_queue` are
  unreachable in a parse: at most 2048 groups and 2048 overflow queues exist, and a note start takes at least three bytes
  of a chunk whose size is a `u32`. The builder's methods therefore return no error there; that they need none is part
  of what is verified.
* Compatible mode ignores malformed bytes after the first End-of-Track, so its success does not imply that the
  structural scan succeeds (`Witnesses.CompatibleWithoutScan`). It does exactly when those bytes decode in every chunk
  (`ScoreFaults.CompatibleScanIff`).
* A score can lack control changes, pitch bends and pedal intervals that the file contains. A row that arrives while its
  channel's current program has no note-on or lyric yet waits in the channel's stragglers; if no group is created on the
  channel afterwards, `finish` never emits it. This happens on channels without notes (`Witnesses.LoneControlDropped`)
  and between notes (`TrackPlacement.StraySwitch`). `ScorePlacement.RowsReachScore` gives the exact condition under which
  a channel loses nothing, and says which rows are dropped otherwise.
* Without limits and below a third of 4 GiB a file parses exactly if it has no fault, and fails with its first one, in
  every grammar (`ScoreFaults.SmallFilesFaultIff`).
* Omitting repeated statuses around meta events is safe exactly when the status is shown again after each meta event;
  otherwise decoding fails with `RunningStatusMissing`. The generator is safe although it never clears its status
  register, because a pitch bend precedes every marker.

## Model

| member | source | states |
|---|---|---|
| `Wire.VlqAt` | crates/miso-midi-core/src/lib.rs:3125-3139 | a quantity is below 2^28, takes one to four bytes, and fails only structurally |
| `WireBytes.QuantityIff` | crates/miso-midi-core/src/lib.rs:3125-3139 | a quantity is read with a value exactly where one to four bytes spell that value, seven bits each, most significant first |
| `WireBytes.EventIff` | crates/miso-midi-core/src/lib.rs:396-451 | an event is read exactly where the bytes up to its end spell it: status C0 to DF and one data byte, any other channel status and two, that status left out only right behind a message that had it, FF with type, length and payload, F0 or F7 with length and payload |
| `WireBytes.ChannelLengths` | crates/miso-midi-core/src/lib.rs:411-432 | over literal status bytes, with a status of their own or the running one: messages C0 to DF end after one data byte, 80 to BF and E0 to EF after two |
| `WireBytes.EventFails` | crates/miso-midi-core/src/lib.rs:396-451 | every failure is reported for its own reason at its own offset: missing bytes, a high data byte, no running status, an unknown status, a length that cannot be read or reaches past the payload |
| `WireBytes.PayloadIsSpelled` | crates/miso-midi-core/src/lib.rs:391-456 | the events of a payload lie end to end and each delta and event is spelled by exactly the bytes it occupies; they fill the payload if and only if there is no error |
| `WireBytes.HeaderIff` | crates/miso-midi-core/src/lib.rs:318-354 | a header is read exactly where its tag, size, format 0, 1 or 2, track count and division are spelled |
| `WireBytes.HeaderFails` | crates/miso-midi-core/src/lib.rs:318-354 | a header failure is the first thing missing or wrong, at its offset |
| `WireBytes.FrameIff` | crates/miso-midi-core/src/lib.rs:369-388 | a chunk is framed exactly where its tag, its size and its payload are spelled |
| `ScoreBounds.EventsTile` | crates/miso-midi-core/src/lib.rs:391-456 | the events of a payload lie end to end from its first byte; they fill it exactly if decoding meets no error, and otherwise the event that would start where they stop is the one that fails, with that error |
| `Cursors.Cursor.ReadU8` | crates/miso-midi-core/src/lib.rs:3100-3108 | one byte or `UnexpectedEnd` at the unmoved position |
| `Cursors.Cursor.ReadSlice` | crates/miso-midi-core/src/lib.rs:3141-3152 | exactly the next bytes, or `UnexpectedEnd` with the position unmoved; the addition cannot overflow |
| `Cursors.Cursor.ReadVlq` | crates/miso-midi-core/src/lib.rs:3125-3139 | the four-step loop returns the quantity, position and error of the grammar |
| `Cursors.Cursor.TakeCursor` | crates/miso-midi-core/src/lib.rs:3158-3162 | a fresh cursor over the next bytes with its absolute base |
| `Scan.ScanChannelData` | crates/miso-midi-core/src/lib.rs:463-478 | the data bytes of a message are skipped with the grammar's errors and offsets, status or running status alike |
| `Scan.ScanEvent` | crates/miso-midi-core/src/lib.rs:396-453 | one event adds exactly its own counters, and the running status becomes that of the grammar |
| `Scan.ScanTrack` | crates/miso-midi-core/src/lib.rs:391-456 | the loop over a payload equals the fold over its trace, and its counters stay within the bytes read |
| `Scan.ReadHeader` | crates/miso-midi-core/src/lib.rs:318-354 | header framing, format and fields, with every error and offset |
| `Scan.ScanSmf` | crates/miso-midi-core/src/lib.rs:317-388 | on every slice the scan equals the fold over the file's chunks; consumed and trailing bytes add up to the file |
| `ScanCounts.ScanCountsEvents` | crates/miso-midi-core/src/lib.rs:410-453 | the counters are the numbers of channel, meta and system events and of all events, the payload counter is the sum of their payload lengths, and the largest delta is at least every delta and is attained, or 0 |
| `ArenaParser.ReadChannelData` | crates/miso-midi-core/src/lib.rs:745-765 | the byte loop returns the message's data bytes, unused ones zero, or the grammar's error |
| `ArenaParser.ParseEvent` | crates/miso-midi-core/src/lib.rs:681-733 | one event appends exactly its record and payload, or reports the grammar's error |
| `ArenaParser.ParseTrack` | crates/miso-midi-core/src/lib.rs:674-742 | the loop equals the fold over the payload's trace and records the track's range |
| `ArenaParser.OwnedSmf.PushVariableEvent` | crates/miso-midi-core/src/lib.rs:802-824 | a meta or system event is recorded with the arena offset of its payload |
| `ArenaParser.ParseSmf` | crates/miso-midi-core/src/lib.rs:638-671 | scan, then a second pass whose framing reads never fail; equal to `ParseFile` on every slice |
| `EventArena.ParsedArenaIsExact` | crates/miso-midi-core/src/lib.rs:638-742 | a parsed arena shows exactly the decoded events of each track through its accessors; track ranges tile the events and payload ranges tile the payloads, in order |
| `EventArena.EveryLookupSucceeds` | crates/miso-midi-core/src/lib.rs:589-618 | every record lies in some track's range and its data lookup succeeds |
| `EventArena.RecordLengths` | crates/miso-midi-core/src/lib.rs:690-712 | the records of messages C0 to DF have one data byte, those of all other channel messages two |
| `Witnesses.PressureDecodes` | crates/miso-midi-core/src/lib.rs:411-432 | a track with one channel pressure message: scan, arena and score decoders in every grammar read its one data byte and find the End-of-Track |
| `EventArena.ParseAgreesWithScan` | crates/miso-midi-core/src/lib.rs:638-671 | below 2^32 bytes the building pass fails exactly when the scan does, with the same error, and otherwise matches its counts, header and extent |
| `NoteColumns.PackRow` | crates/miso-midi-core/src/lib.rs:919-1036 | packing times, pitch and velocity into a row loses nothing, for both row widths |
| `NoteColumns.NoteColumnsBuilder.Push` | crates/miso-midi-core/src/lib.rs:1918-1940 | appends one open note at any tick, widening the rows if needed, and returns its index; fails only past 2^32 rows |
| `NoteColumns.NoteColumnsBuilder.Complete` | crates/miso-midi-core/src/lib.rs:1954-2017 | closes exactly one open note with any 64-bit duration, the all-ones values included |
| `NoteColumns.NoteColumnsBuilder.PromoteToWide` | crates/miso-midi-core/src/lib.rs:2021-2046 | widening keeps every note: open ones stay open, all-ones durations stay completed |
| `NoteColumns.CompactNotes` | crates/miso-midi-core/src/lib.rs:2089-2120 | the in-place compaction keeps the completed rows, in push order |
| `NoteColumns.NoteColumnsBuilder.IntoSegment` | crates/miso-midi-core/src/lib.rs:2048-2067 | the segment is the completed notes in push order, whatever was promoted or left open |
| `OpenTable.PackRoundTrip` | crates/miso-midi-core/src/lib.rs:2223-2240 | an unpacked slot gives its note, and its start unless that is at or above the all-ones mark |
| `OpenTable.QueuesBounded` | crates/miso-midi-core/src/lib.rs:2388-2408 | when the free list is empty, fewer than 2048 queues exist while some key has none |
| `OpenTable.EnsureQueueLinked` | crates/miso-midi-core/src/lib.rs:2388-2408 | finding, recycling or creating a queue changes no key's queue of notes and never hands out the sentinel |
| `OpenTable.ChainAscends` | crates/miso-midi-core/src/lib.rs:2318-2334 | overflow lists run through the arena in push order, so they have no cycles |
| `OpenTable.LinkNodeLinked` | crates/miso-midi-core/src/lib.rs:2326-2334 | linking a node appends one note to one key's queue and keeps all lists disjoint |
| `OpenTable.AdvanceLinked` | crates/miso-midi-core/src/lib.rs:2362-2386 | closing the primary note drops exactly the head of one queue; a freed queue is empty |
| `TrackBuilder.ScoreTrackBuilder.SetProgram` | crates/miso-midi-core/src/lib.rs:2242-2244 | sets one channel's program and nothing else |
| `TrackBuilder.ScoreTrackBuilder.CreateGroup` | crates/miso-midi-core/src/lib.rs:2271-2291 | the new group takes the channel's stragglers and is recorded in table and bit set; its index is never the sentinel |
| `TrackBuilder.ScoreTrackBuilder.EnsureGroup` | crates/miso-midi-core/src/lib.rs:2258-2268 | finds or creates the one group of channel and program |
| `TrackBuilder.ScoreTrackBuilder.EnsureOverflowQueue` | crates/miso-midi-core/src/lib.rs:2388-2408 | refines finding, recycling or creating a queue, on the arrays |
| `TrackBuilder.ScoreTrackBuilder.QueueNote` | crates/miso-midi-core/src/lib.rs:2312-2335 | slot and linked list together append the note to its key's queue |
| `TrackBuilder.ScoreTrackBuilder.AddNote` | crates/miso-midi-core/src/lib.rs:2294-2337 | performs the model's note-on: starts an open note in the group and queues it last |
| `TrackBuilder.ScoreTrackBuilder.AdvanceKey` | crates/miso-midi-core/src/lib.rs:2362-2386 | the next queued note becomes the primary one, with its start looked up in its row, or the key is freed |
| `TrackBuilder.ScoreTrackBuilder.EndNote` | crates/miso-midi-core/src/lib.rs:2344-2386 | performs the model's note-off: completes the oldest open note of the key, or changes nothing |
| `TrackBuilder.ScoreTrackBuilder.AddLyric` | crates/miso-midi-core/src/lib.rs:2412-2425 | lyrics go to the group of channel zero's current program |
| `TrackBuilder.ScoreTrackBuilder.AddControl` | crates/miso-midi-core/src/lib.rs:2427-2431 | one more control in the current group, or in the stragglers |
| `TrackBuilder.ScoreTrackBuilder.AddPitchBend` | crates/miso-midi-core/src/lib.rs:2433-2437 | one more bend in the current group, or in the stragglers |
| `TrackBuilder.ScoreTrackBuilder.HandlePedal` | crates/miso-midi-core/src/lib.rs:2439-2458 | a level of 64 or more holds the first time only; a lower one records the interval and releases |
| `TrackBuilder.NextProgram` | crates/miso-midi-core/src/lib.rs:2472-2476 | the lowest set bit is the next program with a group, and clearing it leaves the later ones |
| `TrackBuilder.ScoreGroupBuilder.Emit` | crates/miso-midi-core/src/lib.rs:2483-2500 | appends one group's columns and its track row, or the first offset overflow |
| `TrackBuilder.ScoreTrackBuilder.Finish` | crates/miso-midi-core/src/lib.rs:2460-2504 | the bit-set loops emit every group once, in channel and program order |
| `Bits.LowestBit` | crates/miso-midi-core/src/lib.rs:2473-2474 | trailing zeros are the index of the lowest set bit |
| `Bits.ClearLowestBit` | crates/miso-midi-core/src/lib.rs:2475 | `x & (x - 1)` clears exactly the lowest set bit |
| `Bits.ShiftedOneFits` | crates/miso-midi-core/src/lib.rs:2868-2874 | a shift by less than 64 stays within 64 bits |
| `TrackInvariants.ApplyInOrder` | crates/miso-midi-core/src/lib.rs:2783-2815 | every operation at a later tick succeeds and keeps each group's notes, controls, bends, pedals and lyrics in time order |
| `TrackInvariants.HandlePedalInOrder` | crates/miso-midi-core/src/lib.rs:2439-2458 | the pedal subtraction never fails when time does not run backwards |
| `TrackInvariants.DurationExact` | crates/miso-midi-core/src/lib.rs:2352-2358 | an open note never starts after its note-off, so the duration is the exact difference |
| `TrackRuns.NotesPairInOrder` | crates/miso-midi-core/src/lib.rs:2294-2386 | after any run, per channel and pitch: note-ons and effective note-offs pair first in, first out; the i-th note has the i-th start, velocity and program and, if closed, the exact difference of ticks as duration; the rest is the queue |
| `TrackGroups.GroupsHoldDeliveries` | crates/miso-midi-core/src/lib.rs:2258-2337 | a group exists exactly for the channel and program that received a note-on or lyric, and holds exactly those, in order |
| `TrackNotes.GroupNotesFinished` | crates/miso-midi-core/src/lib.rs:2294-2386 | after any run the completed notes of a group are exactly the note-ons of its channel and program that have a note-off of their own, in note-on order, each with its start, pitch, velocity and the exact distance to that note-off |
| `TrackPlacement.RowsPlaced` | crates/miso-midi-core/src/lib.rs:2246-2291 | after any run, each group of a channel holds exactly the controls, bends and pedal intervals whose home it is, in arrival order, and the stragglers exactly those without a home |
| `TrackPlacement.HomeIs` | crates/miso-midi-core/src/lib.rs:2246-2256 | a row goes to the group of the program current when it arrived, if that had a note-on or lyric before; it has no home exactly if not and no group is created on its channel afterwards |
| `TrackPlacement.HomeNext` | crates/miso-midi-core/src/lib.rs:2271-2291 | a row that had to wait goes to the first group created on its channel afterwards, and stays there |
| `TrackPlacement.GroupsKeepIff` | crates/miso-midi-core/src/lib.rs:2460-2504 | the groups of a channel and its rows without a home make up what was delivered, each row once; the groups hold all of it exactly if every row meets its group or is followed by the creation of one |
| `TrackPlacement.StraySwitch` | crates/miso-midi-core/src/lib.rs:2246-2256 | between two notes a control can be lost: it arrives under a program without a group, and the channel then returns to one that has a group |
| `TrackPlacement.SilentChannelWaits` | crates/miso-midi-core/src/lib.rs:2246-2256 | on a channel where nothing is struck or sung every row waits for ever |
| `TrackPlacement.KeptPedalsDisjoint` | crates/miso-midi-core/src/lib.rs:2439-2458 | the pedal intervals stored in a group, or in the stragglers, ascend without overlap, and none overlaps one stored elsewhere on the channel |
| `TrackTotals.GroupsBounded` | crates/miso-midi-core/src/lib.rs:2271-2280 | a track has at most 2048 groups |
| `TrackTotals.ApplyRows` | crates/miso-midi-core/src/lib.rs:2783-2894 | one event adds at most one row and at most one pedal interval |
| `Utf8.NormalizeValid` | crates/miso-midi-core/src/lib.rs:1626-1668 | normalized text is well-formed UTF-8 |
| `Utf8.NormalizeBounded` | crates/miso-midi-core/src/lib.rs:1626-1668 | normalizing at most triples the length |
| `Utf8.NormalizeKeepsValid` | crates/miso-midi-core/src/lib.rs:1639-1648 | well-formed text is left alone |
| `Utf8.NormalizeIdempotent` | crates/miso-midi-core/src/lib.rs:1626-1668 | normalizing normalized text changes nothing |
| `Utf8.NormalizeFromError` | crates/miso-midi-core/src/lib.rs:1649-1661 | skipping to the first error and replacing it is one step of normalizing |
| `Utf8Errors.MalformedSkips` | crates/miso-midi-core/src/lib.rs:1649-1661 | what is replaced is the maximal subpart: the longest proper beginning of some character's encoding, or one byte where none begins |
| `Utf8Errors.NormalizeSteps` | crates/miso-midi-core/src/lib.rs:1626-1668 | said against the encoding alone: a whole character is kept, anywhere else the maximal subpart becomes U+FFFD, and so on behind it |
| `Utf8Errors.AsciiKept` | crates/miso-midi-core/src/lib.rs:1626-1668 | normalizing drops, adds and moves no ASCII byte |
| `Utf8Text.ValidIffEncoded` | crates/miso-midi-core/src/lib.rs:1639-1640 | a byte string is accepted exactly when it is the UTF-8 encoding of some sequence of Unicode scalar values |
| `ScoreArena.TickScore.AppendNormalized` | crates/miso-midi-core/src/lib.rs:1635-1663 | the loop terminates and appends the normalized text, and fails exactly when the final total exceeds the text limit |
| `ScoreArena.TickScore.PushText` | crates/miso-midi-core/src/lib.rs:1626-1670 | the returned range is where the normalized text went; offsets past 32 bits fail first |
| `ScoreArena.Budget.CheckTextAppend` | crates/miso-midi-core/src/lib.rs:1842-1858 | the check by subtraction is the check of the sum |
| `ScoreBudgets.LimitsIff` | crates/miso-midi-core/src/lib.rs:1690-1859 | a file that parses without limits parses under limits, to the same score, exactly if they allow its bytes, tracks, largest track, events read, notes started and text kept; otherwise the error names a limit below what is demanded of it |
| `ScoreBudgets.EventBudgetIff` | crates/miso-midi-core/src/lib.rs:1812-1825 | a file that parses under some limits parses under another event limit, to the same score, exactly if that limit is at least the number of events read; otherwise the limit is what fails |
| `ScoreTheorems.LegacyReadsScan` | crates/miso-midi-core/src/lib.rs:1812-1825 | the trusted decoder reads as many events as the scan counts, so the scan tells which event limits suffice |
| `ScoreArena.TickScore.PushNoteSegment` | crates/miso-midi-core/src/lib.rs:2509-2526 | one more segment with its range, or an offset overflow |
| `ScoreArena.AppendColumn` | crates/miso-midi-core/src/lib.rs:2529-2542 | the column extended, with its range, or an offset overflow |
| `ScoreArena.TickScore.Notes` | crates/miso-midi-core/src/lib.rs:1495-1503 | the materialized note column is the concatenation of the segments, and asking again changes nothing |
| `ScoreEmission.EmissionIsExact` | crates/miso-midi-core/src/lib.rs:2460-2504 | every non-empty group becomes an output track whose ranges select exactly its rows, and every appended track is such a group's |
| `ScoreEmission.EmitFromTiles` | crates/miso-midi-core/src/lib.rs:2483-2500 | column ranges stay adjacent and cover each column |
| `ScoreEmission.EmitFromAscends` | crates/miso-midi-core/src/lib.rs:2470-2476 | tracks strictly ascend by source track, channel and program |
| `ScoreEmission.NotesMatchSegments` | crates/miso-midi-core/src/lib.rs:1495-1565 | the flattened notes over a track's range are that track's own notes, and there are `note_count` of them |
| `StableSort.SortIsStable` | crates/miso-midi-core/src/lib.rs:2757-2760 | sorting orders rows by tick and keeps the order of each tick's rows |
| `ScoreMetas.MetasOfFile` | crates/miso-midi-core/src/lib.rs:2817-2894 | in stable tick order, the tempos, signatures and markers of every returned score say what the payloads of the file's meta events say: three tempo bytes most significant first, a denominator that halves to 1 as often as its byte says, a key in two's complement, a marker selecting its normalized text; all text is well-formed UTF-8 |
| `ScoreMetas.TempoRoundTrip` | crates/miso-midi-core/src/lib.rs:2855-2863 | every tempo below 2^24 is read back from its three bytes |
| `ScoreMetas.OneTrackStaysInOrder` | crates/miso-midi-core/src/lib.rs:2757-2760 | in a file with at most one track the sort changes nothing: the rows are in reading order |
| `ScoreParser.ReadScoreChannelData` | crates/miso-midi-core/src/lib.rs:773-799 | the scalar reader returns the same bytes and errors as the grammar |
| `ScoreParser.ScoreTrackSemantics.Channel` | crates/miso-midi-core/src/lib.rs:2783-2815 | a channel message is charged and applied as the grammar says; a note-on of velocity zero is a note-off |
| `TrackSpelling.TrackOpsSpelled` | crates/miso-midi-core/src/lib.rs:2783-2894 | the operations of a track are its events up to where the grammar stops, one each, at the sums of their deltas: note, control, program and bend with the values of their literal status and data bytes, nothing for the other statuses |
| `TrackSpelling.BendRoundTrip` | crates/miso-midi-core/src/lib.rs:2805-2813 | for every channel and bend from -8192 to 8191 the message that spells it delivers it |
| `ScoreParser.ScoreTrackSemantics.Meta` | crates/miso-midi-core/src/lib.rs:2817-2894 | names, lyrics, markers, tempos and signatures reach their columns; wrong shapes are errors |
| `ScoreParser.HandleEndOfTrack` | crates/miso-midi-core/src/lib.rs:2923-2948 | strictly it must be empty and last, otherwise the rest of the chunk is skipped; charged in between |
| `ScoreParser.ScoreEvent` | crates/miso-midi-core/src/lib.rs:2997-3058 | one event: outcome, running status and position as the grammar says |
| `ScoreParser.ScoreStep` | crates/miso-midi-core/src/lib.rs:2990-3059 | one turn of the loop; starting a note takes at least three bytes |
| `ScoreParser.ParseScoreTrack` | crates/miso-midi-core/src/lib.rs:2973-3070 | the whole track loop and the builder's finish equal the fold over the payload's trace |
| `ScoreParser.ReadScoreHeader` | crates/miso-midi-core/src/lib.rs:2667-2708 | the header with its limit and division checks, in reading order |
| `ScoreParser.OpenScoreTrack` | crates/miso-midi-core/src/lib.rs:2730-2745 | a chunk's declared size is checked before its payload is taken |
| `ScoreParser.ParseScoreSmf` | crates/miso-midi-core/src/lib.rs:2662-2762 | for every policy, grammar and slice, the parser equals `ScoreFile`, error for error |
| `ScoreBudgets.BudgetsNeverChangeMeaning` | crates/miso-midi-core/src/lib.rs:1690-1859 | under any larger budget, or none, the outcome is the same score or the same error, unless the smaller budget itself ran out |
| `ScoreTheorems.UnlimitedIsTrusted` | crates/miso-midi-core/src/lib.rs:97-104 | the bounded parser with every limit at its maximum is the trusted parser, on every slice |
| `ScoreTheorems.BudgetBoundsScore` | crates/miso-midi-core/src/lib.rs:1812-1859 | a bounded parse returns no more notes, controls, bends, lyrics and global rows than `max_events`, and no more text than its limit |
| `ScoreModes.StrictIff` | crates/miso-midi-core/src/lib.rs:2602-2660 | strict mode returns a score exactly when compatible mode returns that score, every chunk ends with an empty End-of-Track, the division is valid and nothing trails |
| `ScoreModes.StrictRefines` | crates/miso-midi-core/src/lib.rs:2580-2660 | a strict score is also what the compatible and legacy parsers return |
| `ScoreBounds.ScoreOutcome` | crates/miso-midi-core/src/lib.rs:2662-2762 | every returned score is tiled, ascending and within bounds; a failure is the file's first wire error or of a kind that the score decoder adds under that grammar, with size overflow only above a third of 4 GiB and no limit error under limits that cover the file |
| `ScoreTheorems.TicksNeverOverflow` | crates/miso-midi-core/src/lib.rs:2991-2995 | no input makes a score parse report tick overflow |
| `ScoreTheorems.SmallFilesNeverOverflow` | crates/miso-midi-core/src/lib.rs:2509-2542 | below a third of 4 GiB no offset or count overflows |
| `ScoreFaults.FaultDecides` | crates/miso-midi-core/src/lib.rs:2662-2762 | for every grammar and policy: a score means the file has no fault; an error is an exhausted limit, a size overflow above a third of 4 GiB, or the file's first fault (header, framing, event, malformed meta event, strict framing), whichever is read first |
| `ScoreFaults.SmallFilesFaultIff` | crates/miso-midi-core/src/lib.rs:2662-2762 | below a third of 4 GiB and without limits, a file parses exactly if it has no fault, and otherwise fails with its first one |
| `ScoreFaults.LegacyTrackFault` | crates/miso-midi-core/src/lib.rs:2898-2921 | a legacy track's fault is the first of its events that is a malformed meta event or, if none is, its wire error |
| `ScoreFaults.ScoreAgreesWithScan` | crates/miso-midi-core/src/lib.rs:2562-2567 | a legacy score means the scan succeeds with the same header and extent and every recognised meta event is well formed; otherwise the error is the scan's own if no malformed meta event is read before it, and the first malformed meta event if one is |
| `ScoreFaults.SmallFilesScoreIff` | crates/miso-midi-core/src/lib.rs:2562-2567 | below a third of 4 GiB the trusted parser accepts exactly the files that scan and whose recognised meta events are well formed |
| `ScoreFaults.CompatibleScanIff` | crates/miso-midi-core/src/lib.rs:2923-2951 | where the compatible parser returns a score, the scan succeeds exactly if in every chunk the bytes after the first End-of-Track decode too, and then header and extent agree |
| `Witnesses.CompatibleWithoutScan` | crates/miso-midi-core/src/lib.rs:2923-2951 | a file with a loose delta time behind its End-of-Track: compatible parsing succeeds, scan and legacy parsing report `UnexpectedEnd` at byte 27 |
| `ScoreTheorems.DecodedTrack` | crates/miso-midi-core/src/lib.rs:2973-3070 | from bytes to notes: a decoded track appends one output track for each channel and program that received a note-on or lyric, and no other, with all rows of its group; notes pair first in, first out; groups and stragglers together hold each row once |
| `ScorePlacement.RowsReachScore` | crates/miso-midi-core/src/lib.rs:2460-2504 | each output track shows exactly the rows whose home is its group; what a channel shows and what has no home make up what was delivered; nothing is dropped exactly if every row settles |
| `Witnesses.LoneControlDropped` | crates/miso-midi-core/src/lib.rs:2460-2504 | a track with one control and no note: the control is delivered, and in every grammar the score gains no track and no control |
| `ScoreFiles.TracksOfFile` | crates/miso-midi-core/src/lib.rs:2730-2762 | in every returned score the output tracks of one source track stand together, one for each channel and program it struck or sang, showing exactly its finished notes, its rows and its lyrics under its last track name; the operations behind them are spelled out by the track's events |
| `ScoreFiles.RowsAreEvents` | crates/miso-midi-core/src/lib.rs:2783-2815 | each note, control and bend of an output track is a message 90 to 9F, B0 to BF or E0 to EF of its channel in its source track, with the same tick and values |
| `VlqCodec.EncodeVlq` | benchmarks/corpus.py:22-31 | the loop prints the groups most significant first; values outside 28 bits raise |
| `VlqCodec.VlqRoundTrip` | benchmarks/corpus.py:22-31 | whatever follows, the decoder returns the printed value and consumes exactly its bytes |
| `VlqCodec.PrintedIsShortest` | benchmarks/corpus.py:22-31 | no shorter form of the value is accepted by the decoder |
| `VlqCodec.TooLongIff` | crates/miso-midi-core/src/lib.rs:3125-3139 | a quantity is too long exactly when four bytes all carry the continuation bit |
| `Printer.PrintedDecodes` | benchmarks/corpus.py:44-51 | printed messages decode to themselves exactly when statuses are shown again after meta events, and otherwise a running status is missing |
| `Printer.CompressionPreservesMeaning` | benchmarks/corpus.py:44-51 | omitting repeated statuses and printing every status decode to the same messages |
| `Printer.SameRecords` | crates/miso-midi-core/src/lib.rs:674-742 | traces with the same messages build the same arena records |
| `Corpus.TrackWriter.ChannelEvent` | benchmarks/corpus.py:44-51 | the nested function appends one printed message and updates register and count |
| `Corpus.MakeTrack` | benchmarks/corpus.py:38-93 | for every index and note count the generated bytes are the printed script and the count is its length; it raises exactly if a name is too long for its length field |
| `Corpus.ControllersCovered` | benchmarks/corpus.py:74-80 | the controls of successive blocks run through every controller from 1 to 120 except 64 |
| `Corpus.FormulasStep` | benchmarks/corpus.py:63-84 | from note to note pitches climb by 17 within 24 to 107, velocities by 29 within 1 to 127 and bends by 31 within 14 bits, wrapping around |
| `Corpus.DeltasStep` | benchmarks/corpus.py:61-72 | deltas repeat 0, 1, 24, 127, 128, 240, 8192; notes last 24 to 120 ticks, one more each time; programs advance by 7 with the track |
| `Corpus.MakeFile` | benchmarks/corpus.py:96-104 | for every track and note count: header and framed tracks with the summed event count, or an exception exactly for a count, size or name that does not fit its field |
| `CorpusDecoding.ScriptResent` | benchmarks/corpus.py:80-86 | never clearing the status register is safe, because a pitch bend precedes every marker |
| `CorpusDecoding.TrackDecodes` | benchmarks/corpus.py:38-93 | a generated track decodes to exactly its script |
| `CorpusDecoding.GeneratedFileScans` | benchmarks/corpus.py:96-104 | every generated file scans, with the generator's own event count and no byte left over |
| `CorpusArena.GeneratedFileBuildsIff` | benchmarks/corpus.py:96-104 | the arena parser accepts a generated file exactly if its events and its payload bytes fit 32 bits, and then holds one record per event and all payload bytes |
| `CorpusTheorems.GeneratedFileScores` | benchmarks/corpus.py:96-104 | it parses in every grammar under every sufficient budget: per track n notes, 2+ceil(n/64) controls, ceil(n/256) bends and one pedal, and ceil(n/512) markers each |
| `CorpusTheorems.GeneratedFileScoresIff` | benchmarks/corpus.py:96-104 | without limits it parses exactly when its notes, controls, bends and text fit the score's 32-bit offsets |
| `Witnesses.TooManyNotes` | benchmarks/corpus.py:96-104 | 65535 tracks of 65538 notes each fit their chunks and scan, but their notes exceed the score's offsets and no grammar parses them |
| `Overlap.MakeOverlap` | benchmarks/corpus.py:263-271 | the generator's literal bytes are the printed opening and closing messages |
| `Overlap.OverlapFileScores` | benchmarks/corpus.py:263-271 | the file parses to exactly n notes on pitch 60 at tick 0 with duration 0 and velocity 1 + i mod 127, in queue order |
| `ScoreContract.TextPrefixRoundTrip` | benchmarks/score_contract.py:147-150 | length-prefixed UTF-8 text is self-delimiting |
| `ScoreContract.RowsRoundTrip` | benchmarks/score_contract.py:264-270 | a counted event list is self-delimiting |
| `ScoreContract.TrackRoundTrip` | benchmarks/score_contract.py:252-278 | a track is self-delimiting |
| `ScoreContract.ScoreRoundTrip` | benchmarks/score_contract.py:242-306 | decoding the canonical bytes, wherever they stand, returns the score and stops right behind them |
| `ScoreContract.CanonicalIsInjective` | benchmarks/score_contract.py:242-306 | equal canonical bytes mean equal scores in every field, and no encoding is a prefix of another |
| `ScoreContract.IntSpelled` | benchmarks/score_contract.py:134-135 | an integer is eight bytes in two's complement, most significant first |
| `CanonicalExample.ScoreExample` | benchmarks/score_contract.py:242-306 | the canonical bytes of a score with a row of every kind, written out |
| `Utf8Text.TextRoundTrip` | benchmarks/score_contract.py:147-150 | encoded text decodes to itself |
| `ScoreEncoder.Encoder.Integer` | benchmarks/score_contract.py:134-135 | signed 64-bit fields are appended; others raise |
| `ScoreEncoder.Encoder.Events` | benchmarks/score_contract.py:264-270 | a count and every field in schema order, or an exception exactly for a value that does not fit |
| `ScoreEncoder.ScoreContractFromRecords` | benchmarks/score_contract.py:242-306 | raises exactly for records that do not fit the encoding, and otherwise returns the canonical bytes and counts that sum the encoded lists |

## Left out

- Sizes: `usize` is 64 bits wide and a slice holds at most `isize::MAX` bytes, so the conversions that can fail only on smaller targets are not modelled.
- Rows of controls: `TickControlChange` is a record here; its ten packed bytes are not modelled, unlike those of notes.
- Group stragglers: a channel's straggler buffer has no note columns of its own; the crate's is always empty.
- Program bit sets: the 128-bit masks are unbounded naturals whose bits at and above 128 are proved clear.
- Taking a group out of the builder when it is emitted: the builder is consumed by `finish`, so the model only reads it.
- Unlimited policy: its counters are kept by the model and compared with nothing; the crate keeps none.
- Release build: `time - start` in `end_note` is modelled as wrapping subtraction, and `TrackInvariants.DurationExact` shows that it never wraps; the `debug_assert` statements are not modelled.
- UTF-8 validation: `from_utf8` is modelled by a validator with its error positions; a truncated last character is reported with the length of what is left of it.
- Sorting: `sort_by_key` is an insertion sort here; only its order and stability are observable.
- Lazy notes: the once-cell behind `notes()` is an optional field; synchronization is not modelled.
- Capacities, `heap_bytes`, `note_capacity_hint`, the `Display` text of errors, and getters that only return a field.
- Python bindings and package, benchmark timing, corpus download, manifests, comparisons with other libraries, and the other fixture generators of `corpus.py`.
- SHA-256: the digest is a function of the canonical bytes and is not part of this model.
- Dynamic types: the contract's records are typed; missing or extra keys, booleans given as integers and similar `TypeError` cases are not modelled, and which of several exceptions is raised first is not stated.
- Negative counts: track and note counts of the generator are natural numbers; negative ones, which Python treats as empty ranges, are not modelled.
- CorpusTheorems.GeneratedFileScores: asks that the file's rows and text fit the score's 32-bit offsets, which `CorpusTheorems.GeneratedFileScoresIff` shows to be necessary.
- Overlap.OverlapFileScores: is stated for the parsers without limits; `BudgetsNeverChangeMeaning` relates them to the bounded ones.
