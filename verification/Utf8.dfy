/** UTF-8 well-formedness, as section 4 of RFC 3629 defines it, and where its characters begin. */
module Utf8 {
  newtype byte = x: int | 0 <= x < 256

  predicate Tail(b: byte) { 0x80 <= b <= 0xBF }

  /** utf8.RuneStart: any byte that is not a continuation byte. */
  predicate RuneStart(b: byte) { !Tail(b) }

  predicate SecondOfThree(a: byte, b: byte) {
    || (a == 0xE0 && 0xA0 <= b <= 0xBF)
    || (0xE1 <= a <= 0xEC && Tail(b))
    || (a == 0xED && 0x80 <= b <= 0x9F)
    || (0xEE <= a <= 0xEF && Tail(b))
  }

  predicate SecondOfFour(a: byte, b: byte) {
    || (a == 0xF0 && 0x90 <= b <= 0xBF)
    || (0xF1 <= a <= 0xF3 && Tail(b))
    || (a == 0xF4 && 0x80 <= b <= 0x8F)
  }

  /** The length of the well-formed character `s` begins with, or 0. */
  function RuneLen(s: seq<byte>): (n: nat)
    ensures n <= 4 && n <= |s|
  {
    if |s| >= 1 && s[0] <= 0x7F then 1
    else if |s| >= 2 && 0xC2 <= s[0] <= 0xDF && Tail(s[1]) then 2
    else if |s| >= 3 && SecondOfThree(s[0], s[1]) && Tail(s[2]) then 3
    else if |s| >= 4 && SecondOfFour(s[0], s[1]) && Tail(s[2]) && Tail(s[3]) then 4
    else 0
  }

  /** utf8.ValidString. */
  predicate Valid(s: seq<byte>)
    decreases |s|
  {
    s == [] || (RuneLen(s) > 0 && Valid(s[RuneLen(s)..]))
  }

  // -------------------------------------------------------------------------
  // Validity is being an encoding
  // -------------------------------------------------------------------------

  /** A Unicode scalar value: a code point that is not a surrogate. */
  predicate Scalar(c: nat) { c <= 0xD7FF || 0xE000 <= c <= 0x10FFFF }

  /** The octets of one character (section 3 of RFC 3629). */
  function Encode(c: nat): seq<byte>
    requires Scalar(c)
  {
    if c <= 0x7F then [c as byte]
    else if c <= 0x7FF then [(0xC0 + c / 64) as byte, (0x80 + c % 64) as byte]
    else if c <= 0xFFFF then [(0xE0 + c / 4096) as byte, (0x80 + c / 64 % 64) as byte, (0x80 + c % 64) as byte]
    else [(0xF0 + c / 262144) as byte, (0x80 + c / 4096 % 64) as byte, (0x80 + c / 64 % 64) as byte, (0x80 + c % 64) as byte]
  }

  predicate AllScalar(cs: seq<nat>) { forall i :: 0 <= i < |cs| ==> Scalar(cs[i]) }

  function EncodeAll(cs: seq<nat>): seq<byte>
    requires AllScalar(cs)
  {
    if cs == [] then [] else Encode(cs[0]) + EncodeAll(cs[1..])
  }

  lemma EncodedLen(c: nat, t: seq<byte>)
    requires Scalar(c)
    ensures RuneLen(Encode(c) + t) == |Encode(c)| > 0
  {
    var s := Encode(c) + t;
    assert s[0] == Encode(c)[0];
    assert c > 0x7F ==> s[1] == Encode(c)[1];
    assert c > 0x7FF ==> s[2] == Encode(c)[2];
    assert c > 0xFFFF ==> s[3] == Encode(c)[3];
  }

  /** The character a well-formed sequence begins with. */
  function Decoded(s: seq<byte>): nat
    requires RuneLen(s) > 0
  {
    match RuneLen(s)
    case 1 => s[0] as nat
    case 2 => (s[0] as nat - 0xC0) * 64 + (s[1] as nat - 0x80)
    case 3 => (s[0] as nat - 0xE0) * 4096 + (s[1] as nat - 0x80) * 64 + (s[2] as nat - 0x80)
    case _ => (s[0] as nat - 0xF0) * 262144 + (s[1] as nat - 0x80) * 4096 + (s[2] as nat - 0x80) * 64 + (s[3] as nat - 0x80)
  }

  lemma SplitTwo(x: nat, y: nat)
    requires y < 64
    ensures var c := x * 64 + y; c / 64 == x && c % 64 == y
  {
  }

  lemma SplitThree(x: nat, y: nat, z: nat)
    requires y < 64 && z < 64
    ensures var c := x * 4096 + y * 64 + z; c / 4096 == x && c / 64 % 64 == y && c % 64 == z
  {
    assert (x * 4096 + y * 64 + z) / 64 == x * 64 + y;
    SplitTwo(x, y);
    SplitTwo(x * 64 + y, z);
  }

  lemma SplitFour(x: nat, y: nat, z: nat, w: nat)
    requires y < 64 && z < 64 && w < 64
    ensures var c := x * 262144 + y * 4096 + z * 64 + w; c / 262144 == x && c / 4096 % 64 == y && c / 64 % 64 == z && c % 64 == w
  {
    var c := x * 262144 + y * 4096 + z * 64 + w;
    assert c / 4096 == x * 64 + y;
    assert c / 64 == x * 4096 + y * 64 + z;
    SplitTwo(x, y);
    SplitTwo(x * 64 + y, z);
  }

  lemma DecodedTwo(s: seq<byte>)
    requires RuneLen(s) == 2
    ensures Scalar(Decoded(s)) && Encode(Decoded(s)) == s[..2]
  {
    SplitTwo(s[0] as nat - 0xC0, s[1] as nat - 0x80);
    assert s[..2] == [s[0], s[1]];
  }

  lemma DecodedThree(s: seq<byte>)
    requires RuneLen(s) == 3
    ensures Scalar(Decoded(s)) && Encode(Decoded(s)) == s[..3]
  {
    SplitThree(s[0] as nat - 0xE0, s[1] as nat - 0x80, s[2] as nat - 0x80);
    assert s[..3] == [s[0], s[1], s[2]];
  }

  lemma DecodedFour(s: seq<byte>)
    requires RuneLen(s) == 4
    ensures Scalar(Decoded(s)) && Encode(Decoded(s)) == s[..4]
  {
    SplitFour(s[0] as nat - 0xF0, s[1] as nat - 0x80, s[2] as nat - 0x80, s[3] as nat - 0x80);
    assert s[..4] == [s[0], s[1], s[2], s[3]];
  }

  /** One character's octets give it back. */
  lemma DecodedEncodes(s: seq<byte>)
    requires RuneLen(s) > 0
    ensures Scalar(Decoded(s)) && Encode(Decoded(s)) == s[..RuneLen(s)]
  {
    match RuneLen(s)
    case 1 => assert s[..1] == [s[0]];
    case 2 => DecodedTwo(s);
    case 3 => DecodedThree(s);
    case _ => DecodedFour(s);
  }

  lemma {:induction false} ValidDecodes(s: seq<byte>) returns (cs: seq<nat>)
    requires Valid(s)
    ensures AllScalar(cs) && s == EncodeAll(cs)
    decreases |s|
  {
    if s == [] {
      cs := [];
    } else {
      var n := RuneLen(s);
      DecodedEncodes(s);
      var rest := ValidDecodes(s[n..]);
      cs := [Decoded(s)] + rest;
      assert cs[1..] == rest && s == s[..n] + s[n..];
    }
  }

  lemma {:induction false} EncodedValid(cs: seq<nat>)
    requires AllScalar(cs)
    ensures Valid(EncodeAll(cs))
  {
    if cs != [] {
      EncodedValid(cs[1..]);
      EncodedLen(cs[0], EncodeAll(cs[1..]));
      var s := EncodeAll(cs);
      assert s[|Encode(cs[0])|..] == EncodeAll(cs[1..]);
    }
  }

  /** Valid text is exactly what encoding some scalar values gives. */
  lemma ValidMeaning(s: seq<byte>)
    ensures Valid(s) <==> exists cs :: AllScalar(cs) && s == EncodeAll(cs)
  {
    hide Valid, EncodeAll;
    if Valid(s) {
      var cs := ValidDecodes(s);
    }
    if cs :| AllScalar(cs) && s == EncodeAll(cs) {
      EncodedValid(cs);
    }
  }

  // -------------------------------------------------------------------------
  // Where characters begin
  // -------------------------------------------------------------------------

  /** The bytes of a character after its first are continuation bytes, and its first is not. */
  lemma RuneShape(s: seq<byte>)
    requires RuneLen(s) > 0
    ensures RuneStart(s[0])
    ensures forall j :: 1 <= j < RuneLen(s) ==> Tail(s[j])
  {
  }

  /** A character cut short is not well-formed, and one followed by anything is unchanged. */
  lemma RuneCut(s: seq<byte>, i: nat)
    requires RuneLen(s) > 0 && i <= |s|
    ensures i < RuneLen(s) ==> RuneLen(s[..i]) == 0
    ensures i >= RuneLen(s) ==> RuneLen(s[..i]) == RuneLen(s)
  {
    var t := s[..i];
    assert forall j :: 0 <= j < i ==> t[j] == s[j];
  }

  /** A cut position falls on a character boundary. */
  predicate Boundary(s: seq<byte>, i: int) { 0 <= i <= |s| && (i == |s| || RuneStart(s[i])) }

  /** Cutting valid text: the part before is valid exactly at a boundary, and then so is the part after. */
  lemma {:induction false} CutValid(s: seq<byte>, i: nat)
    requires Valid(s) && i <= |s|
    ensures Valid(s[..i]) <==> Boundary(s, i)
    ensures Boundary(s, i) ==> Valid(s[i..])
    decreases |s|
  {
    if s == [] {
      assert s[..i] == [] && s[i..] == [];
    } else {
      var n := RuneLen(s);
      RuneShape(s);
      RuneCut(s, i);
      if i == 0 {
        assert s[..i] == [] && s[i..] == s;
      } else if i >= n {
        CutValid(s[n..], i - n);
        assert s[..i][n..] == s[n..][..i - n];
        assert s[n..][i - n..] == s[i..];
        assert i < |s| ==> s[i] == s[n..][i - n];
      }
    }
  }

  lemma BoundaryShift(s: seq<byte>, i: nat, j: nat)
    requires i <= j <= |s|
    ensures Boundary(s[i..], j - i) <==> Boundary(s, j)
  {
    hide RuneStart;
    assert j < |s| ==> s[i..][j - i] == s[j];
  }

  /** Between two boundaries of valid text lies valid text; from a boundary, only up to a boundary. */
  lemma SliceValid(s: seq<byte>, i: nat, j: nat)
    requires Valid(s) && i <= j <= |s| && Boundary(s, i)
    ensures Valid(s[i..j]) <==> Boundary(s, j)
  {
    hide Valid, Boundary;
    CutValid(s, i);
    CutValid(s[i..], j - i);
    BoundaryShift(s, i, j);
    assert s[i..][..j - i] == s[i..j];
  }

  /** From a boundary before the end the next one is at most four bytes on. */
  lemma NextBoundary(s: seq<byte>, i: nat) returns (j: nat)
    requires Valid(s) && Boundary(s, i) && i < |s|
    ensures i < j <= i + 4 && j <= |s| && Boundary(s, j)
  {
    CutValid(s, i);
    var t := s[i..];
    j := i + RuneLen(t);
    assert Valid(t[RuneLen(t)..]);
    CutValid(t, RuneLen(t));
    if j < |s| {
      RuneShape(t[RuneLen(t)..]);
      assert s[j] == t[RuneLen(t)..][0];
    }
  }
}
