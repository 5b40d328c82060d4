/** Byte strings and the truncation used for transcript text. Well-formedness is the syntax given in
    section 4 of RFC 3629. */
module Utf8 {

  type Byte = b: nat | b < 256

  type Text = seq<Byte>

  predicate Tail(b: Byte) {
    0x80 <= b <= 0xBF
  }

  /** Length of the well-formed character at the front, or 0 when there is none. */
  function HeadLength(s: Text): (n: nat)
    requires s != []
    ensures n <= 4 && n <= |s|
  {
    var b := s[0];
    if b <= 0x7F then 1
    else if 0xC2 <= b <= 0xDF && |s| >= 2 && Tail(s[1]) then 2
    else if 0xE0 <= b <= 0xEF && |s| >= 3 && Tail(s[1]) && Tail(s[2])
      && (b == 0xE0 ==> s[1] >= 0xA0) && (b == 0xED ==> s[1] <= 0x9F) then 3
    else if 0xF0 <= b <= 0xF4 && |s| >= 4 && Tail(s[1]) && Tail(s[2]) && Tail(s[3])
      && (b == 0xF0 ==> s[1] >= 0x90) && (b == 0xF4 ==> s[1] <= 0x8F) then 4
    else 0
  }

  predicate WellFormed(s: Text)
    decreases |s|
  {
    s == [] || (HeadLength(s) > 0 && WellFormed(s[HeadLength(s)..]))
  }

  // ---- what the syntax means: section 3 of RFC 3629 ----

  predicate Scalar(c: nat) {
    c < 0xD800 || 0xE000 <= c <= 0x10FFFF
  }

  function Trail(c: nat): Byte {
    0x80 + c % 64
  }

  /** Six more bits behind what is there. */
  function Joined(c: nat, trail: Byte): nat
    requires Tail(trail)
  {
    64 * c + (trail - 0x80)
  }

  function Encoded(c: nat): Text
    requires Scalar(c)
  {
    if c < 0x80 then [c]
    else if c < 0x800 then [0xC0 + c / 64, Trail(c)]
    else if c < 0x10000 then [0xE0 + c / 64 / 64, Trail(c / 64), Trail(c)]
    else [0xF0 + c / 64 / 64 / 64, Trail(c / 64 / 64), Trail(c / 64), Trail(c)]
  }

  function EncodedAll(text: seq<nat>): Text
    requires forall c :: c in text ==> Scalar(c)
  {
    if text == [] then [] else Encoded(text[0]) + EncodedAll(text[1..])
  }

  /** The character at the front, read off its bytes. */
  function HeadOf(s: Text): (c: nat)
    requires s != [] && HeadLength(s) > 0
  {
    var b: nat := s[0];
    match HeadLength(s)
    case 1 => b
    case 2 => Joined(b - 0xC0, s[1])
    case 3 => Joined(Joined(b - 0xE0, s[1]), s[2])
    case _ => Joined(Joined(Joined(b - 0xF0, s[1]), s[2]), s[3])
  }

  lemma JoinedSplits(c: nat, trail: Byte)
    requires Tail(trail)
    ensures Joined(c, trail) / 64 == c && Trail(Joined(c, trail)) == trail
  {}

  /** A character is found at the front exactly when the text starts with the encoding of one. */
  lemma HeadIsEncoded(s: Text)
    requires s != [] && HeadLength(s) > 0
    ensures Scalar(HeadOf(s)) && Encoded(HeadOf(s)) == s[..HeadLength(s)]
  {
    var n := HeadLength(s);
    var b: nat := s[0];
    if n == 2 {
      JoinedSplits(b - 0xC0, s[1]);
    } else if n == 3 {
      JoinedSplits(b - 0xE0, s[1]);
      JoinedSplits(Joined(b - 0xE0, s[1]), s[2]);
    } else if n == 4 {
      JoinedSplits(b - 0xF0, s[1]);
      JoinedSplits(Joined(b - 0xF0, s[1]), s[2]);
      JoinedSplits(Joined(Joined(b - 0xF0, s[1]), s[2]), s[3]);
    }
  }

  lemma EncodedIsHead(c: nat, rest: Text)
    requires Scalar(c)
    ensures HeadLength(Encoded(c) + rest) == |Encoded(c)|
  {}

  /** The well-formed texts are the encodings of sequences of characters. */
  lemma {:induction false} WellFormedIsEncoded(s: Text) returns (text: seq<nat>)
    requires WellFormed(s)
    ensures (forall c :: c in text ==> Scalar(c)) && EncodedAll(text) == s
    decreases |s|
  {
    hide HeadLength, HeadOf, Encoded, Scalar;
    if s == [] {
      text := [];
    } else {
      HeadIsEncoded(s);
      var rest := WellFormedIsEncoded(s[HeadLength(s)..]);
      text := [HeadOf(s)] + rest;
      assert text[1..] == rest;
    }
  }

  lemma {:induction false} EncodedIsWellFormed(text: seq<nat>)
    requires forall c :: c in text ==> Scalar(c)
    ensures WellFormed(EncodedAll(text))
  {
    hide HeadLength, Scalar;
    if text != [] {
      EncodedIsWellFormed(text[1..]);
      EncodedIsHead(text[0], EncodedAll(text[1..]));
      assert EncodedAll(text)[|Encoded(text[0])|..] == EncodedAll(text[1..]);
    }
  }

  /** `is_char_boundary`. */
  predicate Boundary(s: Text, i: nat)
    requires i <= |s|
  {
    i == 0 || i == |s| || !Tail(s[i])
  }

  /** The largest boundary that is not above `end`. */
  function Cut(s: Text, end: nat): (cut: nat)
    requires end <= |s|
    ensures cut <= end && Boundary(s, cut)
    ensures forall i | cut < i <= end :: !Boundary(s, i)
  {
    if Boundary(s, end) then end else Cut(s, end - 1)
  }

  /** U+2026, three bytes. */
  const ELLIPSIS: Text := [0xE2, 0x80, 0xA6]

  /** The longest prefix of whole characters within the budget, marked when something was cut. */
  function Capped(value: Text, maxBytes: nat): Text {
    if |value| <= maxBytes then value else value[..Cut(value, maxBytes)] + ELLIPSIS
  }

  /** A text within the budget is shown as it is; of any other text whole characters are shown from the front, none
      more would fit, at most three bytes of the budget stay unused, and the mark says that something is missing. */
  ghost predicate Shortens(value: Text, maxBytes: nat, capped: Text) {
    if |value| <= maxBytes then capped == value
    else
      var n := |capped| - |ELLIPSIS|;
      && 0 <= n <= maxBytes <= n + 3
      && capped[..n] == value[..n] && capped[n..] == ELLIPSIS
      && Boundary(value, n) && WellFormed(value[..n])
      && (forall i | n < i <= maxBytes :: !Boundary(value, i))
  }

  lemma CappedShortens(value: Text, maxBytes: nat)
    requires WellFormed(value)
    ensures Shortens(value, maxBytes, Capped(value, maxBytes))
  {
    if |value| > maxBytes {
      var n := Cut(value, maxBytes);
      CutIsNear(value, maxBytes);
      SplitWellFormed(value, n);
      assert Capped(value, maxBytes)[..n] == value[..n];
    }
  }

  method CapUtf8(value: Text, maxBytes: nat) returns (capped: Text)
    requires WellFormed(value)
    ensures capped == Capped(value, maxBytes) && WellFormed(capped) && Shortens(value, maxBytes, capped)
    ensures |capped| <= maxBytes + 3 && (|value| > maxBytes ==> |capped| >= maxBytes)
  {
    CappedShortens(value, maxBytes);
    if |value| <= maxBytes {
      return value;
    }
    var end := maxBytes;
    while end > 0 && !Boundary(value, end)
      invariant 0 <= end <= maxBytes && Cut(value, maxBytes) == Cut(value, end)
    {
      end := end - 1;
    }
    SplitWellFormed(value, end);
    CutIsNear(value, maxBytes);
    assert HeadLength(ELLIPSIS) == 3 && ELLIPSIS[3..] == [];
    ConcatWellFormed(value[..end], ELLIPSIS);
    return value[..end] + ELLIPSIS;
  }

  /** The first character depends on its own bytes only. */
  lemma HeadOfConcat(a: Text, b: Text)
    requires a != []
    ensures HeadLength(a) > 0 ==> HeadLength(a + b) == HeadLength(a)
    ensures 0 < HeadLength(a + b) <= |a| ==> HeadLength(a) == HeadLength(a + b)
  {
    var s := a + b;
    assert s[0] == a[0];
    assert forall i | 1 <= i < |a| :: s[i] == a[i];
  }

  /** A boundary is never inside the first character. */
  lemma BoundaryAfterHead(s: Text, cut: nat)
    requires s != [] && HeadLength(s) > 0 && 0 < cut <= |s| && Boundary(s, cut)
    ensures HeadLength(s) <= cut && Boundary(s[HeadLength(s)..], cut - HeadLength(s))
  {}

  /** Cutting at a boundary never splits a character. */
  lemma {:induction false} SplitWellFormed(s: Text, cut: nat)
    requires WellFormed(s) && cut <= |s| && Boundary(s, cut)
    ensures WellFormed(s[..cut]) && WellFormed(s[cut..])
    decreases |s|
  {
    hide HeadLength, Boundary;
    if cut == 0 {
      assert s[0..] == s;
    } else {
      var n := HeadLength(s);
      var rest := s[n..];
      BoundaryAfterHead(s, cut);
      SplitWellFormed(rest, cut - n);
      assert s[..cut] + s[cut..] == s;
      HeadOfConcat(s[..cut], s[cut..]);
      assert s[..cut][n..] == rest[..cut - n] && rest[cut - n..] == s[cut..];
    }
  }

  lemma {:induction false} ConcatWellFormed(a: Text, b: Text)
    requires WellFormed(a) && WellFormed(b)
    ensures WellFormed(a + b)
    decreases |a|
  {
    hide HeadLength;
    if a == [] {
      assert a + b == b;
    } else {
      var n := HeadLength(a);
      HeadOfConcat(a, b);
      ConcatWellFormed(a[n..], b);
      assert (a + b)[n..] == a[n..] + b;
    }
  }

  /** Characters have at most four bytes, so at most three bytes are given up. */
  lemma {:induction false} CutIsNear(s: Text, end: nat)
    requires WellFormed(s) && end <= |s|
    ensures Cut(s, end) + 3 >= end
    decreases |s|
  {
    if end > 3 {
      var n := HeadLength(s);
      var rest := s[n..];
      CutIsNear(rest, end - n);
      var cut := Cut(rest, end - n) + n;
      assert Boundary(s, cut) by {
        assert cut < |s| ==> s[cut] == rest[cut - n];
        assert n < |s| ==> HeadLength(rest) > 0;
      }
    }
  }
}
