/**
  UTF-8 as section 4 of RFC 3629 defines it, the standard library's error
  positions, and the replacement of malformed parts that score text goes through.
 */
module Utf8 {
  import opened Base

  const REPLACEMENT: Bytes := [0xEF, 0xBF, 0xBD]

  predicate Between(b: u8, low: u8, high: u8) {
    low <= b <= high
  }

  predicate Continuation(b: u8) {
    0x80 <= b <= 0xBF
  }

  /** Bytes announced by a first byte, or 0 if it cannot start a character. */
  function Announced(first: u8): nat {
    if first < 0x80 then 1
    else if Between(first, 0xC2, 0xDF) then 2
    else if Between(first, 0xE0, 0xEF) then 3
    else if Between(first, 0xF0, 0xF4) then 4
    else 0
  }

  /** Second bytes that avoid overlong forms, surrogates and values above 10FFFF. */
  predicate SecondFits(first: u8, second: u8) {
    if first == 0xE0 then Between(second, 0xA0, 0xBF)
    else if first == 0xED then Between(second, 0x80, 0x9F)
    else if first == 0xF0 then Between(second, 0x90, 0xBF)
    else if first == 0xF4 then Between(second, 0x80, 0x8F)
    else Continuation(second)
  }

  /** The outcome of reading one character: its length, or the length of what is skipped. */
  datatype Step = Good(len: nat) | Malformed(len: nat)

  /** One character at the start of `s`; a truncated one is skipped to the end of the input. */
  function StepAt(s: Bytes): (r: Step)
    requires s != []
    ensures 1 <= r.len <= |s| && r.len <= 4
  {
    var n := Announced(s[0]);
    if n == 0 then Malformed(1)
    else if n == 1 then Good(1)
    else if |s| < 2 then Malformed(1)
    else if !SecondFits(s[0], s[1]) then Malformed(1)
    else if n == 2 then Good(2)
    else if |s| < 3 then Malformed(2)
    else if !Continuation(s[2]) then Malformed(2)
    else if n == 3 then Good(3)
    else if |s| < 4 then Malformed(3)
    else if !Continuation(s[3]) then Malformed(3)
    else Good(4)
  }

  /** Well-formed text: characters from start to end. */
  predicate Valid(s: Bytes)
    decreases |s|
  {
    s == [] || (StepAt(s).Good? && Valid(s[StepAt(s).len..]))
  }

  /** The longest well-formed prefix that ends at a character boundary. */
  function ValidUpTo(s: Bytes): (n: nat)
    ensures n <= |s|
    decreases |s|
  {
    if s == [] || StepAt(s).Malformed? then 0
    else StepAt(s).len + ValidUpTo(s[StepAt(s).len..])
  }

  /** Text with every malformed part replaced. */
  function Normalize(s: Bytes): Bytes
    decreases |s|
  {
    if s == [] then []
    else
      var step := StepAt(s);
      (if step.Good? then s[..step.len] else REPLACEMENT) + Normalize(s[step.len..])
  }

  // ----- Normalized text is well formed, bounded and stable

  /** A character's length does not depend on what follows it. */
  lemma StepExtends(s: Bytes, rest: Bytes)
    requires s != [] && StepAt(s) == Good(|s|)
    ensures StepAt(s + rest) == Good(|s|)
  {}

  lemma ValidPrepend(s: Bytes, rest: Bytes)
    requires s != [] && StepAt(s) == Good(|s|) && Valid(rest)
    ensures Valid(s + rest)
  {
    StepExtends(s, rest);
    assert (s + rest)[|s|..] == rest;
  }

  lemma FirstCharacter(s: Bytes)
    requires s != [] && StepAt(s).Good?
    ensures StepAt(s[..StepAt(s).len]) == StepAt(s)
  {}

  lemma {:induction false} NormalizeValid(s: Bytes)
    ensures Valid(Normalize(s))
    decreases |s|
  {
    if s != [] {
      var step := StepAt(s);
      NormalizeValid(s[step.len..]);
      if step.Good? {
        FirstCharacter(s);
        ValidPrepend(s[..step.len], Normalize(s[step.len..]));
      } else {
        ValidPrepend(REPLACEMENT, Normalize(s[step.len..]));
      }
    }
  }

  lemma {:induction false} NormalizeBounded(s: Bytes)
    ensures |Normalize(s)| <= 3 * |s|
    decreases |s|
  {
    if s != [] {
      NormalizeBounded(s[StepAt(s).len..]);
    }
  }

  lemma {:induction false} NormalizeKeepsValid(s: Bytes)
    requires Valid(s)
    ensures Normalize(s) == s
    decreases |s|
  {
    if s != [] {
      NormalizeKeepsValid(s[StepAt(s).len..]);
      assert s == s[..StepAt(s).len] + s[StepAt(s).len..];
    }
  }

  /** Normalizing is idempotent, for every byte string. */
  lemma NormalizeIdempotent(s: Bytes)
    ensures Normalize(Normalize(s)) == Normalize(s)
  {
    NormalizeValid(s);
    NormalizeKeepsValid(Normalize(s));
  }

  /** Well-formed texts concatenate to well-formed text. */
  lemma {:induction false} ValidConcat(a: Bytes, b: Bytes)
    requires Valid(a) && Valid(b)
    ensures Valid(a + b)
    decreases |a|
  {
    hide StepAt;
    if a == [] {
      assert a + b == b;
    } else {
      var n := StepAt(a).len;
      ValidConcat(a[n..], b);
      FirstCharacter(a);
      ValidPrepend(a[..n], a[n..] + b);
      assert a + b == a[..n] + (a[n..] + b);
    }
  }

  // ----- The standard library's view of the first error

  /** Skipping to the first error and replacing it is one step of normalizing. */
  lemma {:induction false} NormalizeFromError(s: Bytes)
    ensures var n := ValidUpTo(s);
            if n == |s| then Normalize(s) == s
            else StepAt(s[n..]).Malformed? && Normalize(s) == s[..n] + AfterError(s[n..])
    decreases |s|
  {
    hide StepAt, AfterError;
    var n := ValidUpTo(s);
    if s == [] {
    } else if StepAt(s).Good? {
      var len := StepAt(s).len;
      var t := s[len..];
      NormalizeFromError(t);
      Rejoin(s, len, n - len);
    } else {
      ErrorFirst(s);
      assert s[0..] == s && s[..0] + AfterError(s) == AfterError(s);
    }
  }

  /** The normalized text from an error on. */
  function AfterError(s: Bytes): Bytes
    requires s != []
  {
    REPLACEMENT + Normalize(s[StepAt(s).len..])
  }

  lemma ErrorFirst(s: Bytes)
    requires s != [] && StepAt(s).Malformed?
    ensures Normalize(s) == AfterError(s)
  {}

  lemma Rejoin(s: Bytes, a: nat, b: nat)
    requires a + b <= |s|
    ensures s[a..][b..] == s[a + b..] && s[..a] + s[a..][..b] == s[..a + b] && s[..a] + s[a..] == s
  {}
}
