/** Truncation of UTF-8 text to a number of bytes (sections 3 and 4 of RFC 3629). */
module Utf8 {
  import opened ProcText

  type Octet = int
  type Octets = seq<Octet>

  predicate IsTail(b: Octet) {
    0x80 <= b <= 0xBF
  }

  /** The octets a sequence with this first octet has, 0 if no sequence starts with it. */
  function LengthFromLead(lead: Octet): (n: nat)
    ensures n <= 4
  {
    if 0x00 <= lead <= 0x7F then 1
    else if 0xC2 <= lead <= 0xDF then 2
    else if 0xE0 <= lead <= 0xEF then 3
    else if 0xF0 <= lead <= 0xF4 then 4
    else 0
  }

  /** The restrictions on the second octet that rule out overlong forms, surrogates and values beyond U+10FFFF. */
  predicate SecondFits(lead: Octet, second: Octet) {
    && IsTail(second)
    && (lead == 0xE0 ==> 0xA0 <= second)
    && (lead == 0xED ==> second <= 0x9F)
    && (lead == 0xF0 ==> 0x90 <= second)
    && (lead == 0xF4 ==> second <= 0x8F)
  }

  /** Length of the well-formed character at the front, 0 if there is none. */
  function FrontLength(b: Octets): (n: nat)
    ensures n <= |b| && n <= 4
  {
    if b == [] then 0
    else
      var n := LengthFromLead(b[0]);
      if n <= |b| && (n >= 2 ==> SecondFits(b[0], b[1])) && (n >= 3 ==> IsTail(b[2])) && (n >= 4 ==> IsTail(b[3]))
      then n
      else 0
  }

  predicate WellFormed(b: Octets)
    decreases |b|
  {
    b == [] || (0 < FrontLength(b) && WellFormed(b[FrontLength(b)..]))
  }

  /** str::is_char_boundary */
  predicate IsCharBoundary(b: Octets, k: nat) {
    k == 0 || k == |b| || (k < |b| && !IsTail(b[k]))
  }

  /** The boundaries of a text are exactly the places where a prefix of it is text. */
  lemma {:induction false} BoundariesAreTextPrefixes(b: Octets, k: nat)
    requires WellFormed(b) && k <= |b|
    ensures WellFormed(b[..k]) <==> IsCharBoundary(b, k)
    decreases |b|
  {
    if k == 0 {
      assert b[..k] == [];
    } else if k == |b| {
      assert b[..k] == b;
    } else {
      var n := FrontLength(b);
      if k < n {
        assert IsTail(b[k]);
        assert FrontLength(b[..k]) == 0;
      } else {
        assert FrontLength(b[..k]) == n;
        assert b[..k][n..] == b[n..][..k - n];
        FrontIsLead(b[n..]);
        BoundariesAreTextPrefixes(b[n..], k - n);
      }
    }
  }

  lemma FrontIsLead(b: Octets)
    requires WellFormed(b) && b != []
    ensures !IsTail(b[0])
  {}

  /** A boundary is never more than three octets back. */
  lemma {:induction false} BoundaryIsNear(b: Octets, k: nat) returns (boundary: nat)
    requires WellFormed(b) && k <= |b|
    ensures boundary <= k <= boundary + 3 && IsCharBoundary(b, boundary)
    decreases |b|
  {
    var n := FrontLength(b);
    if k == 0 || k < n {
      boundary := 0;
    } else {
      boundary := BoundaryIsNear(b[n..], k - n);
      boundary := boundary + n;
      if n < |b| {
        FrontIsLead(b[n..]);
      }
    }
  }

  /** The last boundary at or before `k`. */
  function BoundaryBefore(b: Octets, k: nat): (end: nat)
    ensures end <= k && (k <= |b| ==> IsCharBoundary(b, end))
  {
    if k == 0 || IsCharBoundary(b, k) then k else BoundaryBefore(b, k - 1)
  }

  function Truncated(value: Octets, max: nat): Octets {
    if |value| <= max then value else value[..BoundaryBefore(value, max)]
  }

  /** truncate_utf8_bytes: the longest text that is a prefix of the value and has at most `max` octets. */
  method TruncateUtf8Bytes(value: Octets, max: nat) returns (text: Octets)
    requires WellFormed(value)
    ensures text == Truncated(value, max)
    ensures text <= value && |text| <= max && WellFormed(text)
    ensures forall k | |text| < k <= max && k <= |value| :: !WellFormed(value[..k])
    ensures |value| <= max ==> text == value
    ensures max < |value| ==> max <= |text| + 3
  {
    if |value| <= max {
      assert value[..|value|] == value;
      return value;
    }
    ghost var near := BoundaryIsNear(value, max);
    var end := max;
    while !IsCharBoundary(value, end)
      invariant near <= end <= max
      invariant forall k | end < k <= max :: !IsCharBoundary(value, k)
      invariant BoundaryBefore(value, end) == BoundaryBefore(value, max)
      decreases end
    {
      end := end - 1;
    }
    BoundariesAreTextPrefixes(value, end);
    forall k | end < k <= max ensures !WellFormed(value[..k]) {
      BoundariesAreTextPrefixes(value, k);
    }
    text := value[..end];
  }

  // Text as characters and as octets

  function EncodeChar(c: char): Octets {
    var u := c as int;
    if u < 0x80 then [u]
    else if u < 0x800 then [0xC0 + u / 0x40, 0x80 + u % 0x40]
    else if u < 0x1_0000 then [0xE0 + u / 0x1000, 0x80 + u / 0x40 % 0x40, 0x80 + u % 0x40]
    else [0xF0 + u / 0x4_0000, 0x80 + u / 0x1000 % 0x40, 0x80 + u / 0x40 % 0x40, 0x80 + u % 0x40]
  }

  function Encode(s: string): Octets {
    if s == [] then [] else EncodeChar(s[0]) + Encode(s[1..])
  }

  lemma EncodedCharIsText(c: char, rest: Octets)
    ensures |EncodeChar(c)| == CharWidth(c) && FrontLength(EncodeChar(c) + rest) == CharWidth(c)
  {
    var u := c as int;
    var b := EncodeChar(c) + rest;
    assert 0 <= u < 0xD800 || 0xE000 <= u < 0x11_0000;
    if 0x80 <= u < 0x800 {
      assert 0xC2 <= b[0] <= 0xDF && IsTail(b[1]);
    } else if 0x800 <= u < 0x1_0000 {
      assert 0xE0 <= b[0] <= 0xEF && SecondFits(b[0], b[1]) && IsTail(b[2]);
    } else if 0x1_0000 <= u {
      assert 0xF0 <= b[0] <= 0xF4 && SecondFits(b[0], b[1]) && IsTail(b[2]) && IsTail(b[3]);
    }
  }

  lemma {:induction false} EncodedIsText(s: string)
    ensures WellFormed(Encode(s)) && |Encode(s)| == ByteLength(s)
  {
    if s != [] {
      EncodedCharIsText(s[0], Encode(s[1..]));
      EncodedIsText(s[1..]);
      ByteLengthCons(s);
      var n := CharWidth(s[0]);
      assert Encode(s)[n..] == Encode(s[1..]);
    }
  }

  /** The number that the octets of one character carry. */
  function Code(b: Octets): int {
    match |b|
    case 1 => b[0]
    case 2 => (b[0] - 0xC0) * 0x40 + (b[1] - 0x80)
    case 3 => ((b[0] - 0xE0) * 0x40 + (b[1] - 0x80)) * 0x40 + (b[2] - 0x80)
    case 4 => (((b[0] - 0xF0) * 0x40 + (b[1] - 0x80)) * 0x40 + (b[2] - 0x80)) * 0x40 + (b[3] - 0x80)
    case _ => 0
  }

  lemma Sixths(u: nat)
    ensures u / 0x1000 == u / 0x40 / 0x40 && u / 0x4_0000 == u / 0x40 / 0x40 / 0x40
  {}

  lemma Sextet(high: int, low: int)
    requires 0 <= low < 0x40
    ensures (high * 0x40 + low) / 0x40 == high && (high * 0x40 + low) % 0x40 == low
  {}

  /** Decoding undoes encoding. */
  lemma EncodedCharCarriesCode(c: char)
    ensures Code(EncodeChar(c)) == c as int
  {
    Sixths(c as int);
  }

  ghost predicate IsFront(b: Octets) {
    0 < FrontLength(b) == |b|
  }

  lemma CodeIsChar(b: Octets)
    requires IsFront(b)
    ensures 0 <= Code(b) < 0xD800 || 0xE000 <= Code(b) < 0x11_0000
    ensures match |b| case 1 => Code(b) < 0x80 case 2 => 0x80 <= Code(b) < 0x800
                      case 3 => 0x800 <= Code(b) < 0x1_0000 case _ => 0x1_0000 <= Code(b)
  {}

  lemma TwoAreEncoded(b: Octets, c: char)
    requires IsFront(b) && |b| <= 2 && Code(b) == c as int
    ensures b == EncodeChar(c)
  {
    CodeIsChar(b);
    if |b| == 2 {
      Sextet(b[0] - 0xC0, b[1] - 0x80);
    }
  }

  lemma ThreeAreEncoded(b: Octets, c: char)
    requires IsFront(b) && |b| == 3 && Code(b) == c as int
    ensures b == EncodeChar(c)
  {
    CodeIsChar(b);
    Sixths(c as int);
    Sextet(b[0] - 0xE0, b[1] - 0x80);
    Sextet((b[0] - 0xE0) * 0x40 + (b[1] - 0x80), b[2] - 0x80);
  }

  lemma FourAreEncoded(b: Octets, c: char)
    requires IsFront(b) && |b| == 4 && Code(b) == c as int
    ensures b == EncodeChar(c)
  {
    CodeIsChar(b);
    Sixths(c as int);
    Sextet(b[0] - 0xF0, b[1] - 0x80);
    Sextet((b[0] - 0xF0) * 0x40 + (b[1] - 0x80), b[2] - 0x80);
    Sextet(((b[0] - 0xF0) * 0x40 + (b[1] - 0x80)) * 0x40 + (b[2] - 0x80), b[3] - 0x80);
  }

  /** And encoding undoes decoding. */
  lemma FrontIsEncoded(b: Octets) returns (c: char)
    requires IsFront(b)
    ensures b == EncodeChar(c)
  {
    CodeIsChar(b);
    c := Code(b) as char;
    hide Code, EncodeChar;
    if |b| <= 2 {
      TwoAreEncoded(b, c);
    } else if |b| == 3 {
      ThreeAreEncoded(b, c);
    } else {
      FourAreEncoded(b, c);
    }
  }

  lemma FrontAlone(b: Octets)
    requires 0 < FrontLength(b)
    ensures IsFront(b[..FrontLength(b)])
  {}

  lemma BehindFront(b: Octets)
    requires WellFormed(b) && b != []
    ensures 0 < FrontLength(b) && WellFormed(b[FrontLength(b)..])
  {}

  lemma EncodeCons(c: char, rest: string)
    ensures Encode([c] + rest) == EncodeChar(c) + Encode(rest)
  {
    assert ([c] + rest)[1..] == rest;
    hide EncodeChar;
  }

  /** Well-formed octets are exactly the texts: each is the encoding of some string. */
  lemma {:induction false} WellFormedIsEncoded(b: Octets) returns (s: string)
    requires WellFormed(b)
    ensures Encode(s) == b
    decreases |b|
  {
    s := [];
    EncodedNothing();
    hide FrontLength, EncodeChar, CharWidth, WellFormed, IsFront, Encode;
    if b != [] {
      BehindFront(b);
      var n := FrontLength(b);
      FrontAlone(b);
      var c := FrontIsEncoded(b[..n]);
      var rest := WellFormedIsEncoded(b[n..]);
      s := [c] + rest;
      EncodeCons(c, rest);
      assert b == b[..n] + b[n..];
    }
  }

  /** The longest prefix of a string that fits into `max` bytes. */
  function LongestPrefix(s: string, max: nat): string {
    if s == [] || max < CharWidth(s[0]) then [] else [s[0]] + LongestPrefix(s[1..], max - CharWidth(s[0]))
  }

  lemma {:induction false} LongestPrefixIsLongest(s: string, max: nat)
    ensures var t := LongestPrefix(s, max);
            && t <= s && ByteLength(t) <= max
            && forall k | |t| < k <= |s| :: max < ByteLength(s[..k])
  {
    var t := LongestPrefix(s, max);
    if s != [] {
      if CharWidth(s[0]) <= max {
        var rest := max - CharWidth(s[0]);
        LongestPrefixIsLongest(s[1..], rest);
        ByteLengthCons(t);
        assert t[1..] == LongestPrefix(s[1..], rest);
        forall k | |t| < k <= |s| ensures max < ByteLength(s[..k]) {
          ByteLengthCons(s[..k]);
          assert s[..k][1..] == s[1..][..k - 1];
        }
      } else {
        forall k | 0 < k <= |s| ensures max < ByteLength(s[..k]) {
          ByteLengthCons(s[..k]);
        }
      }
    }
  }

  /** Truncation keeps the first character whole or drops everything. */
  lemma TruncatedFront(b: Octets, max: nat)
    requires WellFormed(b) && b != []
    ensures var n := FrontLength(b);
            Truncated(b, max) == if max < n then [] else b[..n] + Truncated(b[n..], max - n)
  {
    hide FrontLength, WellFormed, BoundaryBefore;
    var n := FrontLength(b);
    assert b == b[..n] + b[n..];
    if max < n {
      NoBoundaryInside(b, max);
    } else if max < |b| {
      BoundaryBeforeShift(b, n, max);
      var k := BoundaryBefore(b[n..], max - n);
      assert b[..n + k] == b[..n] + b[n..][..k];
    }
  }

  lemma TruncatedCons(c: char, tail: Octets, max: nat)
    requires WellFormed(EncodeChar(c) + tail)
    ensures Truncated(EncodeChar(c) + tail, max) ==
            if max < CharWidth(c) then [] else EncodeChar(c) + Truncated(tail, max - CharWidth(c))
  {
    hide EncodeChar, CharWidth, WellFormed, FrontLength, BoundaryBefore, Truncated;
    EncodedCharIsText(c, tail);
    var b := EncodeChar(c) + tail;
    assert b[..CharWidth(c)] == EncodeChar(c) && b[CharWidth(c)..] == tail;
    TruncatedFront(b, max);
  }

  /** Truncating octets and truncating characters are the same operation. */
  lemma {:induction false} TruncationKeepsWholeCharacters(s: string, max: nat)
    ensures Truncated(Encode(s), max) == Encode(LongestPrefix(s, max))
  {
    if s != [] {
      assert Encode(s) == EncodeChar(s[0]) + Encode(s[1..]);
      hide EncodeChar, CharWidth, WellFormed, Encode, Truncated;
      EncodedIsText(s);
      TruncatedCons(s[0], Encode(s[1..]), max);
      if CharWidth(s[0]) <= max {
        TruncationKeepsWholeCharacters(s[1..], max - CharWidth(s[0]));
        EncodeCons(s[0], LongestPrefix(s[1..], max - CharWidth(s[0])));
      } else {
        EncodedNothing();
      }
    }
  }

  lemma EncodedNothing()
    ensures Encode([]) == []
  {}

  lemma {:induction false} NoBoundaryInside(b: Octets, k: nat)
    requires b != [] && k < FrontLength(b)
    ensures BoundaryBefore(b, k) == 0
  {
    if 0 < k {
      assert IsTail(b[k]);
      NoBoundaryInside(b, k - 1);
    }
  }

  lemma {:induction false} BoundaryBeforeShift(b: Octets, n: nat, k: nat)
    requires WellFormed(b) && b != [] && n == FrontLength(b) <= k < |b|
    ensures BoundaryBefore(b, k) == n + BoundaryBefore(b[n..], k - n)
  {
    FrontIsLead(b[n..]);
    if n < k && IsTail(b[k]) {
      BoundaryBeforeShift(b, n, k - 1);
    }
  }
}
