/** The crate's `Cursor`: a position that reads advance through a byte slice. */
module Cursors {
  import opened Base
  import opened Smf
  import opened Wire

  lemma VlqFromNext(d: Bytes, p: nat, base: nat, start: nat, value: nat, left: nat)
    requires p <= |d| && left > 0
    ensures VlqFrom(d, p, base, start, value, left)
         == if p == |d| then Err(At(base + p, UnexpectedEnd))
            else if d[p] < 0x80 then Ok(Read(value * 0x80 + d[p] % 0x80, p + 1))
            else VlqFrom(d, p + 1, base, start, value * 0x80 + d[p] % 0x80, left - 1)
  {}

  lemma VlqFromSpent(d: Bytes, p: nat, base: nat, start: nat, value: nat)
    requires p <= |d|
    ensures VlqFrom(d, p, base, start, value, 0) == Err(At(start, VariableLengthQuantityTooLong))
  {}

  lemma VlqIsFour(d: Bytes, p: nat, base: nat)
    requires p <= |d|
    ensures match VlqFrom(d, p, base, base + p, 0, 4)
            case Ok(r) => r.value < 0x1000_0000 && VlqAt(d, p, base) == Ok(Read(r.value, r.next))
            case Err(e) => VlqAt(d, p, base) == Err(e)
  {
    hide Pow128;
  }

  class Cursor {
    const data: Bytes
    const base: nat
    var position: nat

    ghost predicate Valid()
      reads this
    {
      position <= |data| <= ISIZE_MAX
    }

    constructor (data: Bytes, base: nat)
      requires |data| <= ISIZE_MAX
      ensures Valid() && this.data == data && this.base == base && position == 0
    {
      this.data, this.base, position := data, base, 0;
    }

    function AbsoluteOffset(): (r: nat)
      reads this
    {
      base + position
    }

    function Remaining(): (r: nat)
      requires Valid()
      reads this
    {
      |data| - position
    }

    /** A failed read leaves the position alone; a successful one moves it to where the grammar says. */
    ghost predicate Moved<T>(r: Result<T, ParseError>, expected: Reading<T>, before: nat)
      reads this
    {
      match expected
      case Ok(read) => r == Ok(read.value) && position == read.next
      case Err(e) => r == Err(e) && before <= position
    }

    method ReadU8() returns (r: Result<u8, ParseError>)
      requires Valid()
      modifies this`position
      ensures Valid() && Moved(r, ByteAt(data, old(position), base), old(position))
      ensures r.Err? ==> position == old(position)
    {
      if position < |data| {
        r := Ok(data[position]);
        position := position + 1;
      } else {
        r := Err(At(AbsoluteOffset(), UnexpectedEnd));
      }
    }

    /** `position + size` cannot overflow: both terms are at most `isize::MAX`. */
    method ReadSlice(size: nat) returns (r: Result<Bytes, ParseError>)
      requires Valid() && size <= ISIZE_MAX
      modifies this`position
      ensures Valid() && Moved(r, Take(data, old(position), size, base), old(position))
      ensures r.Err? ==> position == old(position)
    {
      var end: u64 := position + size;
      if end <= |data| {
        r := Ok(data[position..end]);
        position := end;
      } else {
        r := Err(At(AbsoluteOffset(), UnexpectedEnd));
      }
    }

    method ReadU16() returns (r: Result<u16, ParseError>)
      requires Valid()
      modifies this`position
      ensures Valid()
      ensures var bytes := Take(data, old(position), 2, base);
              if bytes.Ok? then r == Ok(Word16(bytes.value.value)) && position == bytes.value.next
              else r == Err(bytes.error)
    {
      var bytes :- ReadSlice(2);
      r := Ok(Word16(bytes));
    }

    method ReadU32() returns (r: Result<u32, ParseError>)
      requires Valid()
      modifies this`position
      ensures Valid()
      ensures var bytes := Take(data, old(position), 4, base);
              if bytes.Ok? then r == Ok(Word32(bytes.value.value)) && position == bytes.value.next
              else r == Err(bytes.error)
    {
      var bytes :- ReadSlice(4);
      r := Ok(Word32(bytes));
    }

    method ReadVlq() returns (r: Result<u28, ParseError>)
      requires Valid()
      modifies this`position
      ensures Valid() && Moved(r, VlqAt(data, old(position), base), old(position))
    {
      hide VlqAt, Pow128, VlqFrom;
      var start := AbsoluteOffset();
      var value: nat := 0;
      ghost var expected := VlqFrom(data, position, base, start, 0, 4);
      VlqIsFour(data, position, base);
      var count := 0;
      while count < 4
        invariant 0 <= count <= 4 && old(position) <= position
        invariant Valid()
        invariant VlqFrom(data, position, base, start, value, 4 - count) == expected
      {
        VlqFromNext(data, position, base, start, value, 4 - count);
        var byte :- ReadU8();
        value := value * 0x80 + byte % 0x80;
        if byte < 0x80 {
          return Ok(value);
        }
        count := count + 1;
      }
      VlqFromSpent(data, position, base, start, value);
      return Err(At(start, VariableLengthQuantityTooLong));
    }

    /** A fresh cursor over the next `size` bytes. */
    method TakeCursor(size: nat) returns (r: Result<Cursor, ParseError>)
      requires Valid() && size <= ISIZE_MAX
      modifies this`position
      ensures Valid()
      ensures var bytes := Take(data, old(position), size, base);
              if bytes.Ok? then
                && r.Ok? && fresh(r.value) && r.value.Valid() && r.value.position == 0
                && r.value.data == bytes.value.value && r.value.base == base + old(position)
                && position == bytes.value.next
              else r == Err(bytes.error)
    {
      var base' := AbsoluteOffset();
      var bytes :- ReadSlice(size);
      var inner := new Cursor(bytes, base');
      r := Ok(inner);
    }
  }
}
