/**
  Text as Unicode scalar values (section 3.9 of the Unicode Standard), its UTF-8
  encoding, and that the byte-level validity of `Utf8` is exactly the image of
  that encoding.
 */
module Utf8Text {
  import opened Base
  import opened Utf8

  type CodePoint = c: int | 0 <= c <= 0x10_FFFF

  predicate IsScalar(c: CodePoint) {
    !(0xD800 <= c <= 0xDFFF)
  }

  type Scalar = c: CodePoint | IsScalar(c)

  /** The low six bits in a continuation byte. */
  function Tail(n: nat): (b: u8)
    ensures Continuation(b)
  {
    0x80 + n % 0x40
  }

  function EncodeChar(c: Scalar): (s: Bytes)
    ensures 1 <= |s| <= 4
  {
    if c < 0x80 then [c]
    else if c < 0x800 then [0xC0 + c / 0x40, Tail(c)]
    else if c < 0x1_0000 then [0xE0 + c / 0x40 / 0x40, Tail(c / 0x40), Tail(c)]
    else [0xF0 + c / 0x40 / 0x40 / 0x40, Tail(c / 0x40 / 0x40), Tail(c / 0x40), Tail(c)]
  }

  function EncodeText(text: seq<Scalar>): Bytes {
    if text == [] then [] else EncodeChar(text[0]) + EncodeText(text[1..])
  }

  /** Six more bits below `n`. */
  function Joined(n: nat, b: u8): (r: nat)
    requires Continuation(b)
    ensures r / 0x40 == n && Tail(r) == b && n * 0x40 <= r < n * 0x40 + 0x40
  {
    n * 0x40 + (b - 0x80)
  }

  function TwoBytes(a: u8, b: u8): (c: Scalar)
    requires Announced(a) == 2 && SecondFits(a, b)
    ensures EncodeChar(c) == [a, b]
  {
    Joined(a - 0xC0, b)
  }

  function ThreeBytes(a: u8, b: u8, c: u8): (r: Scalar)
    requires Announced(a) == 3 && SecondFits(a, b) && Continuation(c)
    ensures EncodeChar(r) == [a, b, c]
  {
    var high := Joined(a - 0xE0, b);
    assert 0x20 <= high < 0x400 && !(0x360 <= high < 0x380);
    Joined(high, c)
  }

  function FourBytes(a: u8, b: u8, c: u8, d: u8): (r: Scalar)
    requires Announced(a) == 4 && SecondFits(a, b) && Continuation(c) && Continuation(d)
    ensures EncodeChar(r) == [a, b, c, d]
  {
    FourBytesRange(a, b, c, d);
    Joined(Joined(Joined(a - 0xF0, b), c), d)
  }

  lemma FourBytesTop(a: u8, b: u8)
    requires Announced(a) == 4 && SecondFits(a, b)
    ensures 0x10 <= Joined(a - 0xF0, b) < 0x110
  {}

  lemma FourBytesRange(a: u8, b: u8, c: u8, d: u8)
    requires Announced(a) == 4 && SecondFits(a, b) && Continuation(c) && Continuation(d)
    ensures var r := Joined(Joined(Joined(a - 0xF0, b), c), d);
            && 0x1_0000 <= r <= 0x10_FFFF && IsScalar(r) && EncodeChar(r) == [a, b, c, d]
  {
    FourBytesTop(a, b);
    hide Joined, Tail, Announced, SecondFits;
    var top := Joined(a - 0xF0, b);
    var high := Joined(top, c);
    var r := Joined(high, d);
    assert 0x400 <= high < 0x4400;
    assert 0x1_0000 <= r < 0x11_0000;
    assert r / 0x40 == high && high / 0x40 == top && top / 0x40 == a - 0xF0;
  }

  /** The character that a good step reads. */
  function CharAt(s: Bytes): (c: Scalar)
    requires s != [] && StepAt(s).Good?
    ensures EncodeChar(c) == s[..StepAt(s).len]
  {
    match StepAt(s).len
    case 1 => s[0]
    case 2 => TwoBytes(s[0], s[1])
    case 3 => ThreeBytes(s[0], s[1], s[2])
    case _ => FourBytes(s[0], s[1], s[2], s[3])
  }

  function DecodeText(s: Bytes): Option<seq<Scalar>>
    decreases |s|
  {
    if s == [] then Some([])
    else if StepAt(s).Malformed? then None
    else
      match DecodeText(s[StepAt(s).len..])
      case None => None
      case Some(rest) => Some([CharAt(s)] + rest)
  }

  /** Second bytes of encoded characters avoid overlong forms, surrogates and values above 10FFFF. */
  lemma SecondOfScalar(c: Scalar)
    requires c >= 0x80
    ensures var s := EncodeChar(c); Announced(s[0]) == |s| && SecondFits(s[0], s[1])
  {
    var h: nat := c / 0x40;
    var hh := h / 0x40;
    assert c == h * 0x40 + c % 0x40 && h == hh * 0x40 + h % 0x40;
    assert Tail(h) == 0x80 + h - hh * 0x40;
    if c >= 0x1_0000 {
      assert Tail(hh) == 0x80 + hh - hh / 0x40 * 0x40;
    } else if hh == 13 {
      assert c < 0xE000 && IsScalar(c);
      assert h * 0x40 < 0xD800;
    }
  }

  lemma JoinedTail(n: nat)
    ensures Joined(n / 0x40, Tail(n)) == n
  {}

  /** An encoded character reads back as itself, whatever follows. */
  lemma CharRoundTrip(c: Scalar, rest: Bytes)
    ensures var s := EncodeChar(c) + rest; StepAt(s) == Good(|EncodeChar(c)|) && CharAt(s) == c
  {
    JoinedTail(c);
    JoinedTail(c / 0x40);
    JoinedTail(c / 0x40 / 0x40);
    if c >= 0x80 {
      SecondOfScalar(c);
    }
    hide Joined, Tail, SecondFits;
    var e := EncodeChar(c);
    var s := e + rest;
    assert forall i :: 0 <= i < |e| ==> s[i] == e[i];
  }

  lemma {:induction false} TextRoundTrip(text: seq<Scalar>)
    ensures DecodeText(EncodeText(text)) == Some(text)
  {
    hide EncodeChar, StepAt, CharAt;
    if text != [] {
      var s, rest := EncodeText(text), EncodeText(text[1..]);
      CharRoundTrip(text[0], rest);
      TextRoundTrip(text[1..]);
      assert s[|EncodeChar(text[0])|..] == rest;
      assert [text[0]] + text[1..] == text;
    }
  }

  /** Byte strings that decode are encodings. */
  lemma {:induction false} BytesRoundTrip(s: Bytes)
    ensures DecodeText(s).Some? <==> Utf8.Valid(s)
    ensures DecodeText(s).Some? ==> EncodeText(DecodeText(s).value) == s
    decreases |s|
  {
    hide EncodeChar, StepAt, CharAt;
    if s != [] && StepAt(s).Good? {
      var n := StepAt(s).len;
      BytesRoundTrip(s[n..]);
      if DecodeText(s[n..]).Some? {
        var text := DecodeText(s).value;
        assert text[0] == CharAt(s) && text[1..] == DecodeText(s[n..]).value;
        assert s == s[..n] + s[n..];
      }
    }
  }

  /** Well-formed bytes are exactly the encodings of sequences of scalar values. */
  lemma ValidIffEncoded(s: Bytes)
    ensures Utf8.Valid(s) <==> exists text: seq<Scalar> :: EncodeText(text) == s
  {
    BytesRoundTrip(s);
    forall text: seq<Scalar> | EncodeText(text) == s ensures Utf8.Valid(s) {
      TextRoundTrip(text);
    }
  }
}
