/**
 Cutting UTF-8 text at character boundaries (src/util.rs and src/tracing_fmt.rs), against the grammar of
 RFC 3629, section 4.
 */
module Utf8 {
  import Settings

  newtype byte = b: int | 0 <= b < 256

  /** A continuation byte, 10xxxxxx. */
  predicate Tail(b: byte) {
    0x80 <= b <= 0xBF
  }

  predicate InRange(b: byte, lo: byte, hi: byte) {
    lo <= b <= hi
  }

  /** The second byte that a first byte allows; some first bytes narrow the range of a continuation byte. */
  predicate Second(first: byte, b: byte) {
    if first == 0xE0 then InRange(b, 0xA0, 0xBF)
    else if first == 0xED then InRange(b, 0x80, 0x9F)
    else if first == 0xF0 then InRange(b, 0x90, 0xBF)
    else if first == 0xF4 then InRange(b, 0x80, 0x8F)
    else Tail(b)
  }

  /** The length of a character that starts with this byte, or 0 if none does. */
  function LengthBy(first: byte): nat {
    if first <= 0x7F then 1
    else if InRange(first, 0xC2, 0xDF) then 2
    else if InRange(first, 0xE0, 0xEF) then 3
    else if InRange(first, 0xF0, 0xF4) then 4
    else 0
  }

  /** The length of the character at the start of s, or 0 if there is none. */
  function CharLength(s: seq<byte>): (n: nat)
    ensures n <= |s| && n <= 4
  {
    if s == [] then 0
    else
      var n := LengthBy(s[0]);
      if n <= |s| && (n > 1 ==> Second(s[0], s[1])) && (forall i :: 2 <= i < n ==> Tail(s[i])) then n else 0
  }

  /** A sequence of whole characters. */
  predicate Valid(s: seq<byte>) {
    s == [] || (CharLength(s) > 0 && Valid(s[CharLength(s)..]))
  }

  /** A character boundary divides the text into two valid texts. */
  ghost predicate Boundary(s: seq<byte>, i: nat) {
    i <= |s| && Valid(s[..i]) && Valid(s[i..])
  }

  /** The check that the code makes in place of the grammar. */
  predicate IsCharBoundary(s: seq<byte>, i: nat)
    requires i <= |s|
  {
    i == 0 || i == |s| || !Tail(s[i])
  }

  lemma CharLengthOfPrefix(s: seq<byte>, i: nat)
    requires CharLength(s) > 0 && i <= |s|
    ensures CharLength(s[..i]) == if i < CharLength(s) then 0 else CharLength(s)
  {
  }

  lemma OnlyFirstIsNoTail(s: seq<byte>, i: nat)
    requires i < CharLength(s)
    ensures Tail(s[i]) <==> i > 0
  {
  }

  /** In valid text, the byte at a position tells whether it is a boundary. */
  lemma {:induction false} BoundaryIffNoTail(s: seq<byte>, i: nat)
    requires Valid(s) && i < |s|
    ensures Tail(s[i]) <==> !Valid(s[..i])
    ensures Tail(s[i]) <==> !Valid(s[i..])
  {
    hide CharLength;
    var n := CharLength(s);
    if i < n {
      OnlyFirstIsNoTail(s, i);
      CharLengthOfPrefix(s, i);
      if i > 0 {
        TailStartsNothing(s[i..]);
      }
    } else {
      BoundaryIffNoTail(s[n..], i - n);
      CharLengthOfPrefix(s, i);
      assert s[..i][n..] == s[n..][..i - n];
      assert s[n..][i - n..] == s[i..];
    }
  }

  lemma TailStartsNothing(s: seq<byte>)
    requires s != [] && Tail(s[0])
    ensures !Valid(s)
  {
  }

  /** The code's check finds the boundaries of the grammar. */
  lemma IsCharBoundaryIff(s: seq<byte>, i: nat)
    requires Valid(s) && i <= |s|
    ensures IsCharBoundary(s, i) <==> Boundary(s, i)
  {
    if i < |s| {
      BoundaryIffNoTail(s, i);
    }
    assert s[..0] == [] && s[0..] == s && s[..|s|] == s && s[|s|..] == [];
  }

  /** A boundary is at most three bytes back. */
  lemma {:induction false} BoundaryIsNear(s: seq<byte>, pos: nat) returns (j: nat)
    requires Valid(s) && pos < |s|
    ensures j <= pos <= j + 3 && !Tail(s[j])
  {
    hide CharLength;
    var n := CharLength(s);
    if pos < n {
      OnlyFirstIsNoTail(s, 0);
      j := 0;
    } else {
      j := BoundaryIsNear(s[n..], pos - n);
      j := n + j;
    }
  }

  /** The largest character boundary at or before `pos`, at most three bytes back. */
  ghost predicate IsFloor(s: seq<byte>, pos: nat, i: nat) {
    && i <= pos <= i + 3 && Boundary(s, i)
    && forall j :: i < j <= pos ==> !Boundary(s, j)
  }

  lemma FloorByTails(s: seq<byte>, pos: nat, i: nat)
    requires Valid(s) && i <= pos < |s|
    requires i == 0 || !Tail(s[i])
    requires forall j :: i < j <= pos ==> Tail(s[j])
    ensures IsFloor(s, pos, i)
  {
    hide Boundary;
    var near := BoundaryIsNear(s, pos);
    forall j | i <= j <= pos ensures Boundary(s, j) <==> j == i {
      IsCharBoundaryIff(s, j);
    }
  }

  /** For a position inside the text; `pos` is the index of a byte. */
  method Utf8Floor(s: seq<byte>, pos: nat) returns (i: nat)
    requires pos < |s|
    ensures i <= pos
    ensures Valid(s) ==> IsFloor(s, pos, i)
  {
    i := pos;
    while i > 0 && Tail(s[i])
      invariant i <= pos
      invariant forall j :: i < j <= pos ==> Tail(s[j])
    {
      i := i - 1;
    }
    if Valid(s) {
      FloorByTails(s, pos, i);
    }
  }

  /** For any position; one past the end gives the end. */
  method FloorCharBoundary(s: seq<byte>, pos: nat) returns (i: nat)
    requires Valid(s)
    ensures if pos >= |s| then i == |s| && Boundary(s, i) else IsFloor(s, pos, i)
  {
    if pos >= |s| {
      IsCharBoundaryIff(s, |s|);
      return |s|;
    }
    i := pos;
    while i > 0 && !IsCharBoundary(s, i)
      invariant i <= pos
      invariant forall j :: i < j <= pos ==> Tail(s[j])
    {
      i := i - 1;
    }
    FloorByTails(s, pos, i);
  }

  // ---------------------------------------------------------------------
  // Truncated events
  // ---------------------------------------------------------------------

  predicate Ascii(s: seq<byte>) {
    forall i :: 0 <= i < |s| ==> s[i] <= 0x7F
  }

  function Bytes(t: string): (s: seq<byte>)
    requires forall i :: 0 <= i < |t| ==> t[i] as int < 0x80
    ensures |s| == |t| && Ascii(s) && forall i :: 0 <= i < |t| ==> s[i] as int == t[i] as int
  {
    seq(|t|, i requires 0 <= i < |t| => t[i] as int as byte)
  }

  lemma {:induction false} DigitsAreAscii(n: nat)
    ensures forall i :: 0 <= i < |Settings.Digits(n)| ==> Settings.Digits(n)[i] as int < 0x80
  {
    if n >= 10 {
      DigitsAreAscii(n / 10);
    }
  }

  /** The note put after a text that was cut: its full length in bytes. */
  function Note(total: nat): (s: seq<byte>)
    ensures Ascii(s) && s != [] && s[|s| - 1] == NEWLINE
  {
    DigitsAreAscii(total);
    Bytes("...[") + Bytes(Settings.Digits(total)) + Bytes("B total]\n")
  }

  lemma {:induction false} AsciiIsValid(s: seq<byte>)
    requires Ascii(s)
    ensures Valid(s)
  {
    if s != [] {
      AsciiIsValid(s[1..]);
    }
  }

  lemma CharLengthOfMore(s: seq<byte>, t: seq<byte>)
    requires CharLength(s) > 0
    ensures CharLength(s + t) == CharLength(s)
  {
  }

  lemma {:induction false} ValidAppend(s: seq<byte>, t: seq<byte>)
    requires Valid(s) && Valid(t)
    ensures Valid(s + t)
  {
    hide CharLength;
    if s == [] {
      assert s + t == t;
    } else {
      var n := CharLength(s);
      ValidAppend(s[n..], t);
      CharLengthOfMore(s, t);
      assert (s + t)[n..] == s[n..] + t;
    }
  }

  const NEWLINE: byte := 0x0A

  function WithoutNewline(s: seq<byte>): seq<byte> {
    if s != [] && s[|s| - 1] == NEWLINE then s[..|s| - 1] else s
  }

  lemma WithoutNewlineIsValid(s: seq<byte>)
    requires Valid(s)
    ensures Valid(WithoutNewline(s))
  {
    if s != [] && s[|s| - 1] == NEWLINE {
      BoundaryIffNoTail(s, |s| - 1);
    }
  }

  ghost predicate CutAt(buf: seq<byte>, max: nat, cut: nat, out: seq<byte>) {
    && cut <= max && cut <= |buf|
    && out == WithoutNewline(buf[..cut]) + Note(|buf|)
    && (Valid(buf) ==> IsFloor(buf, max, cut))
  }

  class EventBuffer {
    var buf: seq<byte>
    const maxBytes: nat

    constructor (maxBytes: nat)
      ensures buf == [] && this.maxBytes == maxBytes
    {
      buf, this.maxBytes := [], maxBytes;
    }

    method Write(data: seq<byte>) returns (written: nat)
      modifies this
      ensures buf == old(buf) + data && written == |data|
    {
      buf := buf + data;
      written := |data|;
    }

    /**
     What is written out in the end. Text that fits is left alone; longer text is cut at the last boundary
     within the limit and gets the note.
     */
    method Output() returns (out: seq<byte>)
      ensures |out| <= maxBytes + if |buf| <= maxBytes then 0 else |Note(|buf|)|
      ensures |buf| <= maxBytes ==> out == buf
      ensures Valid(buf) ==> Valid(out)
      ensures |buf| > maxBytes ==> exists cut :: CutAt(buf, maxBytes, cut, out)
    {
      if |buf| <= maxBytes {
        return buf;
      }
      var cut := Utf8Floor(buf, maxBytes);
      out := WithoutNewline(buf[..cut]) + Note(|buf|);
      assert CutAt(buf, maxBytes, cut, out);
      if Valid(buf) {
        WithoutNewlineIsValid(buf[..cut]);
        AsciiIsValid(Note(|buf|));
        ValidAppend(WithoutNewline(buf[..cut]), Note(|buf|));
      }
    }
  }

  /** One newline at the end is taken off, and nothing else. */
  lemma OneNewlineGoes(s: seq<byte>)
    ensures WithoutNewline(s + [NEWLINE]) == s
    ensures s == [] || s[|s| - 1] != NEWLINE ==> WithoutNewline(s) == s
  {
  }
}
