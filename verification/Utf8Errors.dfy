/**
  What is replaced in malformed text, said against the encoding of characters:
  the maximal subpart of a character (section 3.9 of the Unicode Standard), and
  nothing that is text of its own.
 */
module Utf8Errors {
  import opened Base
  import opened Utf8
  import opened Utf8Text

  /** The first `n` bytes begin the encoding of some character without finishing it. */
  ghost predicate Subpart(s: Bytes, n: nat) {
    1 <= n <= |s| && exists c: Scalar :: n < |EncodeChar(c)| && EncodeChar(c)[..n] == s[..n]
  }

  /** The text begins with a whole character of `n` bytes. */
  ghost predicate Whole(s: Bytes, n: nat) {
    n <= |s| && exists c: Scalar :: EncodeChar(c) == s[..n]
  }

  /** `n` is the longest subpart, or 1 where the text begins with none. */
  ghost predicate MaximalSubpart(s: Bytes, n: nat) {
    && (Subpart(s, n) || (n == 1 && !Subpart(s, 1)))
    && forall m :: n < m <= |s| ==> !Subpart(s, m)
  }

  // ----- Subparts, byte by byte

  /** A subpart starts as its character does, and continues with bytes that fit. */
  lemma SubpartFits(s: Bytes, n: nat)
    requires Subpart(s, n)
    ensures n < Announced(s[0]) && (n >= 2 ==> SecondFits(s[0], s[1])) && (n >= 3 ==> Continuation(s[2])) && n < 4
  {
    var c: Scalar :| n < |EncodeChar(c)| && EncodeChar(c)[..n] == s[..n];
    SecondOfScalar(c);
    assert forall i :: 0 <= i < n ==> s[i] == s[..n][i] == EncodeChar(c)[i];
    ThirdContinues(c);
  }

  lemma ThirdContinues(c: Scalar)
    ensures |EncodeChar(c)| >= 3 ==> Continuation(EncodeChar(c)[2])
  {
    hide Tail;
  }

  /** A second byte that fits any first byte with two or more bytes announced. */
  function SomeSecond(first: u8): (b: u8)
    requires Announced(first) >= 2
    ensures SecondFits(first, b)
  {
    if first == 0xE0 then 0xA0 else if first == 0xF0 then 0x90 else 0x80
  }

  /** Whatever fits so far is the beginning of some character. */
  lemma FitsIsSubpart(s: Bytes, n: nat)
    requires 1 <= n <= |s| && n < Announced(s[0]) && (n >= 2 ==> SecondFits(s[0], s[1])) && (n >= 3 ==> Continuation(s[2]))
    ensures Subpart(s, n)
  {
    hide EncodeChar, Joined;
    var first := s[0];
    var second := if n >= 2 then s[1] else SomeSecond(first);
    var third: u8 := if n >= 3 then s[2] else 0x80;
    assert s[..n] == [first, second, third][..n];
    if Announced(first) == 2 {
      var c := TwoBytes(first, second);
      assert EncodeChar(c)[..n] == s[..n];
    } else if Announced(first) == 3 {
      var c := ThreeBytes(first, second, third);
      assert EncodeChar(c)[..n] == s[..n];
    } else {
      var c := FourBytes(first, second, third, 0x80);
      assert EncodeChar(c)[..n] == s[..n];
    }
  }

  lemma WholeIsGood(s: Bytes, n: nat)
    requires s != [] && Whole(s, n)
    ensures StepAt(s) == Good(n)
  {
    hide StepAt, EncodeChar, CharAt;
    var c: Scalar :| EncodeChar(c) == s[..n];
    CharRoundTrip(c, s[n..]);
    assert s == EncodeChar(c) + s[n..];
  }

  lemma GoodIsWhole(s: Bytes)
    requires s != [] && StepAt(s).Good?
    ensures Whole(s, StepAt(s).len)
  {
    hide StepAt, EncodeChar;
    var c := CharAt(s);
    assert EncodeChar(c) == s[..StepAt(s).len];
  }

  /** A step is good exactly where the text begins with a whole character, and then reads it. */
  lemma GoodIff(s: Bytes)
    requires s != []
    ensures StepAt(s).Good? <==> exists n: nat :: Whole(s, n)
    ensures forall n: nat :: Whole(s, n) ==> StepAt(s) == Good(n)
  {
    hide StepAt, Whole;
    if StepAt(s).Good? {
      GoodIsWhole(s);
    }
    forall n: nat | Whole(s, n) ensures StepAt(s) == Good(n) {
      WholeIsGood(s, n);
    }
  }

  /** A malformed step skips exactly the maximal subpart of a character. */
  lemma MalformedSkips(s: Bytes)
    requires s != [] && StepAt(s).Malformed?
    ensures MaximalSubpart(s, StepAt(s).len)
  {
    hide Subpart;
    var n := StepAt(s).len;
    if n < Announced(s[0]) {
      FitsIsSubpart(s, n);
    }
    forall m | 1 <= m <= |s| && Subpart(s, m) ensures m <= n && n < Announced(s[0]) {
      SubpartFits(s, m);
    }
  }

  // ----- Nothing else is lost

  /** The ASCII bytes of a text, in order. */
  function AsciiOf(s: Bytes): Bytes {
    if s == [] then [] else AsciiOf(s[..|s| - 1]) + if s[|s| - 1] < 0x80 then [s[|s| - 1]] else []
  }

  lemma {:induction false} AsciiOfConcat(a: Bytes, b: Bytes)
    ensures AsciiOf(a + b) == AsciiOf(a) + AsciiOf(b)
  {
    if b == [] {
      assert a + b == a;
    } else {
      AsciiOfConcat(a, b[..|b| - 1]);
      assert (a + b)[..|a + b| - 1] == a + b[..|b| - 1];
    }
  }

  lemma {:induction false} NoAscii(s: Bytes)
    requires forall i :: 0 <= i < |s| ==> s[i] >= 0x80
    ensures AsciiOf(s) == []
  {
    if s != [] {
      NoAscii(s[..|s| - 1]);
    }
  }

  lemma SkippedHasNoAscii(s: Bytes)
    requires s != [] && StepAt(s).Malformed?
    ensures forall i :: 0 <= i < StepAt(s).len ==> s[i] >= 0x80
  {}

  /** Normalizing drops, adds and moves no ASCII byte. */
  lemma {:induction false} AsciiKept(s: Bytes)
    ensures AsciiOf(Normalize(s)) == AsciiOf(s)
    decreases |s|
  {
    hide StepAt, AsciiOf;
    if s != [] {
      var n := StepAt(s).len;
      AsciiKept(s[n..]);
      AsciiOfConcat(s[..n], s[n..]);
      assert s == s[..n] + s[n..];
      if StepAt(s).Good? {
        AsciiOfConcat(s[..n], Normalize(s[n..]));
      } else {
        SkippedHasNoAscii(s);
        NoAscii(s[..n]);
        NoAscii(REPLACEMENT);
        AsciiOfConcat(REPLACEMENT, Normalize(s[n..]));
      }
    }
  }

  // ----- Normalization, without steps

  /**
    Normalizing, said against the encoding alone: a whole character is kept, and
    anywhere else the maximal subpart is replaced, each followed by the
    normalized rest.
   */
  lemma NormalizeSteps(s: Bytes, n: nat)
    requires s != [] && n <= |s|
    ensures EncodeChar(0xFFFD) == REPLACEMENT
    ensures Whole(s, n) ==> n > 0 && Normalize(s) == s[..n] + Normalize(s[n..])
    ensures (forall m: nat :: !Whole(s, m)) && MaximalSubpart(s, n) ==> n > 0 && Normalize(s) == REPLACEMENT + Normalize(s[n..])
  {
    hide StepAt, Whole, Subpart, EncodeChar;
    ReplacementIsFFFD();
    GoodIff(s);
    if forall m: nat :: !Whole(s, m) {
      MalformedSkips(s);
      if MaximalSubpart(s, n) {
        OneMaximal(s, n, StepAt(s).len);
      }
    }
  }

  lemma ReplacementIsFFFD()
    ensures EncodeChar(0xFFFD) == REPLACEMENT
  {}

  lemma OneMaximal(s: Bytes, a: nat, b: nat)
    requires s != [] && 0 < b <= |s| && a <= |s| && MaximalSubpart(s, a) && MaximalSubpart(s, b)
    ensures a == b
  {
    assert Subpart(s, a) ==> a >= 1;
  }
}
