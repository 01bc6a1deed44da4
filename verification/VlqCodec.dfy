/** The corpus generator's variable-length quantities, and that the decoder inverts them. */
module VlqCodec {
  import opened Base
  import opened Smf
  import opened Wire

  const VLQ_MAX: nat := 0x0FFF_FFFF

  // ----- What is printed

  /** The groups before the last one, most significant first, each with its continuation bit. */
  function HighGroups(value: nat): Bytes {
    if value == 0 then [] else HighGroups(value / 0x80) + [0x80 + value % 0x80]
  }

  function Vlq(value: nat): (s: Bytes)
    ensures |s| >= 1
  {
    HighGroups(value / 0x80) + [value % 0x80]
  }

  function Reversed(s: Bytes): Bytes {
    if s == [] then [] else Reversed(s[1..]) + [s[0]]
  }

  lemma {:induction false} ReversedAppend(s: Bytes, b: u8)
    ensures Reversed(s + [b]) == [b] + Reversed(s)
  {
    if s == [] {
      assert [] + [b] == [b];
    } else {
      ReversedAppend(s[1..], b);
      assert (s + [b])[1..] == s[1..] + [b];
    }
  }

  /** Appends the groups from the least significant on, then reverses; `None` is the `ValueError`. */
  method EncodeVlq(value: int) returns (r: Option<Bytes>)
    ensures r == if 0 <= value <= VLQ_MAX then Some(Vlq(value)) else None
  {
    if !(0 <= value <= VLQ_MAX) {
      return None;
    }
    var encoded: Bytes := [value % 0x80];
    var rest := value / 0x80;
    assert Reversed(encoded) == [value % 0x80];
    while rest != 0
      invariant rest >= 0
      invariant HighGroups(rest) + Reversed(encoded) == Vlq(value)
    {
      ReversedAppend(encoded, 0x80 + rest % 0x80);
      assert HighGroups(rest) + Reversed(encoded) == HighGroups(rest / 0x80) + Reversed(encoded + [0x80 + rest % 0x80]);
      encoded, rest := encoded + [0x80 + rest % 0x80], rest / 0x80;
    }
    assert HighGroups(0) + Reversed(encoded) == Reversed(encoded);
    r := Some(Reversed(encoded));
  }

  // ----- Round trip

  /** `s` stands at position `p`. */
  predicate StandsAt(d: Bytes, p: nat, s: Bytes) {
    p + |s| <= |d| && d[p..p + |s|] == s
  }

  lemma StandsSplit(d: Bytes, p: nat, a: Bytes, b: Bytes)
    requires StandsAt(d, p, a + b)
    ensures StandsAt(d, p, a) && StandsAt(d, p + |a|, b)
  {
    assert d[p..p + |a|] == (a + b)[..|a|] && d[p + |a|..p + |a| + |b|] == (a + b)[|a|..];
  }

  lemma {:induction false} HighGroupsLength(value: nat, n: nat)
    requires value < Pow128(n)
    ensures |HighGroups(value)| <= n
  {
    if value > 0 {
      HighGroupsLength(value / 0x80, n - 1);
    }
  }

  lemma {:induction false} DecodeHighGroups(d: Bytes, p: nat, base: nat, start: nat, value: nat, left: nat)
    requires StandsAt(d, p, HighGroups(value)) && |HighGroups(value)| <= left
    ensures VlqFrom(d, p, base, start, 0, left)
         == VlqFrom(d, p + |HighGroups(value)|, base, start, value, left - |HighGroups(value)|)
  {
    if value > 0 {
      var high, last := HighGroups(value / 0x80), 0x80 + value % 0x80;
      StandsSplit(d, p, high, [last]);
      DecodeHighGroups(d, p, base, start, value / 0x80, left);
      assert d[p + |high|] == d[p + |high|..p + |high| + 1][0] == last;
    }
  }

  lemma Powers()
    ensures Pow128(1) == 0x80 && Pow128(2) == 0x4000 && Pow128(3) == 0x20_0000 && Pow128(4) == 0x1000_0000
  {
    assert Pow128(1) == 0x80 && Pow128(2) == 0x4000;
  }

  /** Whatever follows, the decoder returns the printed value and consumes exactly its bytes. */
  lemma VlqRoundTrip(d: Bytes, p: nat, base: nat, value: u28)
    requires StandsAt(d, p, Vlq(value))
    ensures VlqAt(d, p, base) == Ok(Read(value, p + |Vlq(value)|)) && |Vlq(value)| <= 4
  {
    hide Pow128;
    Powers();
    var high := HighGroups(value / 0x80);
    HighGroupsLength(value / 0x80, 3);
    StandsSplit(d, p, high, [value % 0x80]);
    DecodeHighGroups(d, p, base, base + p, value / 0x80, 4);
    assert d[p + |high|] == d[p + |high|..p + |high| + 1][0] == value % 0x80;
  }

  // ----- Canonicity

  /** A quantity read in `k` bytes is below 128 to the `k`, so no shorter form than the printed one exists. */
  lemma {:induction false} ReadBelow(d: Bytes, p: nat, base: nat, start: nat, value: nat, left: nat, n: nat)
    requires p <= |d| && value < Pow128(n)
    requires VlqFrom(d, p, base, start, value, left).Ok?
    ensures var r := VlqFrom(d, p, base, start, value, left).value; r.value < Pow128(n + (r.next - p))
    decreases left
  {
    var next := value * 0x80 + d[p] % 0x80;
    assert next < Pow128(n + 1);
    if d[p] >= 0x80 {
      ReadBelow(d, p + 1, base, start, next, left - 1, n + 1);
    }
  }

  /** The printed form is the shortest one the decoder accepts for its value. */
  lemma PrintedIsShortest(d: Bytes, p: nat, base: nat)
    requires p <= |d| && VlqAt(d, p, base).Ok?
    ensures var r := VlqAt(d, p, base).value; |Vlq(r.value)| <= r.next - p
  {
    var r := VlqAt(d, p, base).value;
    ReadBelow(d, p, base, base + p, 0, 4, 0);
    HighGroupsLength(r.value / 0x80, r.next - p - 1);
  }

  /** Too long is exactly four continuation bytes. */
  lemma TooLongIff(d: Bytes, p: nat, base: nat)
    requires p <= |d|
    ensures VlqAt(d, p, base) == Err(At(base + p, VariableLengthQuantityTooLong))
       <==> p + 4 <= |d| && forall k :: p <= k < p + 4 ==> d[k] >= 0x80
  {
    hide Pow128;
    var v := VlqFrom(d, p, base, base + p, 0, 4);
    assert VlqAt(d, p, base).Err? == v.Err?;
    if p < |d| && d[p] >= 0x80 {
      if p + 1 < |d| && d[p + 1] >= 0x80 {
        if p + 2 < |d| && d[p + 2] >= 0x80 {
          var a: nat, b: nat, c: nat := d[p] % 0x80, d[p + 1] % 0x80, d[p + 2] % 0x80;
          var w := (a * 0x80 + b) * 0x80 + c;
          assert v == VlqFrom(d, p + 3, base, base + p, w, 1);
        }
      }
    }
  }
}
