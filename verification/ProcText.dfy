/** The string operations the procfs parsers are made of: white space, tokens, numbers. */
module ProcText {
  import opened Common

  /** The Unicode White_Space property, as `char::is_whitespace` has it. */
  predicate IsWhitespace(c: char) {
    var u := c as int;
    || 0x09 <= u <= 0x0D
    || u == 0x20 || u == 0x85 || u == 0xA0 || u == 0x1680
    || 0x2000 <= u <= 0x200A
    || u == 0x2028 || u == 0x2029 || u == 0x202F || u == 0x205F || u == 0x3000
  }

  /** A non-empty run of characters without white space. */
  ghost predicate IsToken(s: string) {
    s != [] && forall i | 0 <= i < |s| :: !IsWhitespace(s[i])
  }

  // Trimming and splitting

  function TrimStart(s: string): string {
    if s != [] && IsWhitespace(s[0]) then TrimStart(s[1..]) else s
  }

  function TrimEnd(s: string): string {
    if s != [] && IsWhitespace(s[|s| - 1]) then TrimEnd(s[..|s| - 1]) else s
  }

  function Trim(s: string): string {
    TrimEnd(TrimStart(s))
  }

  /** Index of the first `c`, or the length. */
  function IndexOf(s: string, c: char): (i: nat)
    ensures i <= |s|
  {
    if s == [] || s[0] == c then 0 else 1 + IndexOf(s[1..], c)
  }

  /** One more than the index of the last `c`, or 0. */
  function AfterLast(s: string, c: char): (i: nat)
    ensures i <= |s|
  {
    if s == [] then 0
    else if s[|s| - 1] == c then |s|
    else AfterLast(s[..|s| - 1], c)
  }

  function SplitOnce(s: string, c: char): Option<(string, string)> {
    var i := IndexOf(s, c);
    if i == |s| then None else Some((s[..i], s[i + 1..]))
  }

  lemma {:induction false} IndexOfIs(s: string, c: char, i: nat)
    requires i <= |s| && (forall j | 0 <= j < i :: s[j] != c) && (i < |s| ==> s[i] == c)
    ensures IndexOf(s, c) == i
  {
    if 0 < i {
      IndexOfIs(s[1..], c, i - 1);
    }
  }

  lemma {:induction false} AfterLastIs(s: string, c: char, i: nat)
    requires 0 < i <= |s| && s[i - 1] == c && (forall j | i <= j < |s| :: s[j] != c)
    ensures AfterLast(s, c) == i
  {
    if i < |s| {
      AfterLastIs(s[..|s| - 1], c, i);
    }
  }

  lemma SplitOnceIs(head: string, c: char, tail: string)
    requires c !in head
    ensures SplitOnce(head + [c] + tail, c) == Some((head, tail))
  {
    var s := head + [c] + tail;
    IndexOfIs(s, c, |head|);
    assert s[..|head|] == head && s[|head| + 1..] == tail;
  }

  lemma TrimToken(s: string)
    requires s != [] ==> !IsWhitespace(s[0]) && !IsWhitespace(s[|s| - 1])
    ensures Trim(s) == s
  {}

  // Tokens

  /** Length of the token at the front. */
  function TokenLength(s: string): (n: nat)
    ensures n <= |s|
  {
    if s == [] || IsWhitespace(s[0]) then 0 else 1 + TokenLength(s[1..])
  }

  /** split_whitespace */
  function Tokens(s: string): seq<string>
    decreases |s|
  {
    if s == [] then []
    else if IsWhitespace(s[0]) then Tokens(s[1..])
    else
      var n := TokenLength(s);
      [s[..n]] + Tokens(s[n..])
  }

  lemma {:induction false} TokenLengthIs(s: string, n: nat)
    requires n <= |s| && (forall i | 0 <= i < n :: !IsWhitespace(s[i])) && (n < |s| ==> IsWhitespace(s[n]))
    ensures TokenLength(s) == n
  {
    if 0 < n {
      TokenLengthIs(s[1..], n - 1);
    }
  }

  lemma {:induction false} TokenLengthStops(s: string)
    ensures var n := TokenLength(s);
            && (forall i | 0 <= i < n :: !IsWhitespace(s[i]))
            && (n < |s| ==> IsWhitespace(s[n]))
  {
    if s != [] && !IsWhitespace(s[0]) {
      TokenLengthStops(s[1..]);
    }
  }

  lemma TokensOfToken(token: string, rest: string)
    requires IsToken(token) && (rest == [] || IsWhitespace(rest[0]))
    ensures Tokens(token + rest) == [token] + Tokens(rest)
  {
    var s := token + rest;
    TokenLengthIs(s, |token|);
    assert s[..|token|] == token && s[|token|..] == rest;
  }

  /** A cut next to white space cuts no token. */
  ghost predicate CutsNoToken(a: string, b: string) {
    a == [] || b == [] || IsWhitespace(a[|a| - 1]) || IsWhitespace(b[0])
  }

  /** A text that starts with a token is that token and a rest that starts with white space, if anything. */
  lemma FrontToken(s: string) returns (token: string, rest: string)
    requires s != [] && !IsWhitespace(s[0])
    ensures s == token + rest && IsToken(token) && (rest == [] || IsWhitespace(rest[0]))
    ensures Tokens(s) == [token] + Tokens(rest) && |rest| < |s|
  {
    var n := TokenLength(s);
    TokenLengthStops(s);
    token, rest := s[..n], s[n..];
    TokensOfToken(token, rest);
  }

  lemma {:induction false} TokensOfAppend(a: string, b: string)
    requires CutsNoToken(a, b)
    ensures Tokens(a + b) == Tokens(a) + Tokens(b)
    decreases |a|
  {
    if a == [] {
      assert a + b == b;
    } else if IsWhitespace(a[0]) {
      assert (a + b)[1..] == a[1..] + b;
      TokensOfAppend(a[1..], b);
    } else {
      var token, rest := FrontToken(a);
      hide Tokens, TokenLength, IsWhitespace;
      assert a + b == token + (rest + b);
      if rest == [] {
        assert a == token && rest + b == b;
        NoTokens();
        TokensOfToken(token, b);
      } else {
        TokensOfAppend(rest, b);
        TokensOfToken(token, rest + b);
      }
    }
  }

  lemma NoTokens()
    ensures Tokens([]) == []
  {}

  lemma {:induction false} TokensOfSpaces(s: string)
    requires forall i | 0 <= i < |s| :: IsWhitespace(s[i])
    ensures Tokens(s) == []
  {
    if s != [] {
      TokensOfSpaces(s[1..]);
    }
  }

  lemma TokensStartingHere(s: string)
    requires s != [] && !IsWhitespace(s[0])
    ensures Tokens(s) != []
  {}

  /** Growing a token by one character adds no token. */
  lemma {:induction false} TokensGrow(s: string, c: char)
    requires s != [] && !IsWhitespace(s[|s| - 1]) && !IsWhitespace(c)
    ensures |Tokens(s + [c])| == |Tokens(s)|
    decreases |s|
  {
    if IsWhitespace(s[0]) {
      assert (s + [c])[1..] == s[1..] + [c];
      TokensGrow(s[1..], c);
    } else {
      var token, rest := FrontToken(s);
      if rest == [] {
        assert s == token;
        TokensOfToken(token + [c], []);
        assert (token + [c]) + [] == s + [c];
      } else {
        TokensGrow(rest, c);
        TokensOfToken(token, rest + [c]);
        assert s + [c] == token + (rest + [c]);
      }
    }
  }

  /** How many tokens one more character makes. */
  lemma TokensOfNext(s: string, i: nat)
    requires i < |s|
    ensures |Tokens(s[..i + 1])| ==
              |Tokens(s[..i])| + if !IsWhitespace(s[i]) && (i == 0 || IsWhitespace(s[i - 1])) then 1 else 0
  {
    var head := s[..i];
    assert s[..i + 1] == head + [s[i]];
    if IsWhitespace(s[i]) {
      TokensOfAppend(head, [s[i]]);
      TokensOfSpaces([s[i]]);
    } else if i == 0 || IsWhitespace(s[i - 1]) {
      TokensOfAppend(head, [s[i]]);
      TokensOfToken([s[i]], []);
      assert [s[i]] + [] == [s[i]] && Tokens([]) == [];
    } else {
      TokensGrow(head, s[i]);
    }
  }

  // Byte offsets

  /** Bytes of a character in UTF-8 (section 3 of RFC 3629). */
  function CharWidth(c: char): (n: nat)
    ensures 1 <= n <= 4
  {
    var u := c as int;
    if u < 0x80 then 1 else if u < 0x800 then 2 else if u < 0x1_0000 then 3 else 4
  }

  function ByteLength(s: string): nat {
    if s == [] then 0 else ByteLength(s[..|s| - 1]) + CharWidth(s[|s| - 1])
  }

  /** The suffix of `s` from a byte offset, if that is a character boundary. */
  function FromByte(s: string, offset: nat): Option<string> {
    if offset == 0 then Some(s)
    else if s == [] || offset < CharWidth(s[0]) then None
    else FromByte(s[1..], offset - CharWidth(s[0]))
  }

  lemma {:induction false} ByteLengthCons(s: string)
    requires s != []
    ensures ByteLength(s) == CharWidth(s[0]) + ByteLength(s[1..])
  {
    if |s| > 1 {
      ByteLengthCons(s[..|s| - 1]);
      assert s[..|s| - 1][1..] == s[1..][..|s| - 2];
    } else {
      assert s[..0] == [] && s[1..] == [];
    }
  }

  lemma {:induction false} FromByteOfPrefix(s: string, k: nat)
    requires k <= |s|
    ensures FromByte(s, ByteLength(s[..k])) == Some(s[k..])
  {
    if k == 0 {
      assert s[..0] == [];
    } else {
      ByteLengthCons(s[..k]);
      assert s[..k][1..] == s[1..][..k - 1];
      FromByteOfPrefix(s[1..], k - 1);
    }
  }

  // The index of a token

  /** `k` is where the token with index `target` starts. */
  ghost predicate StartsToken(s: string, k: nat, target: nat) {
    && k < |s| && !IsWhitespace(s[k]) && (k == 0 || IsWhitespace(s[k - 1]))
    && |Tokens(s[..k])| == target
  }

  /** The character index of a token, or nothing if there are not that many. */
  function TokenStart(s: string, target: nat): (start: Option<nat>)
    ensures start.Some? ==> start.value < |s|
  {
    TokenStartFrom(s, 0, 0, false, target)
  }

  /** The scan of whitespace_token_start from index `i` on. */
  function TokenStartFrom(s: string, i: nat, tokenIndex: nat, inToken: bool, target: nat): (start: Option<nat>)
    requires i <= |s|
    ensures start.Some? ==> start.value < |s|
    decreases |s| - i
  {
    if i == |s| then None
    else if IsWhitespace(s[i]) then TokenStartFrom(s, i + 1, tokenIndex, false, target)
    else if inToken then TokenStartFrom(s, i + 1, tokenIndex, true, target)
    else if tokenIndex == target then Some(i)
    else TokenStartFrom(s, i + 1, tokenIndex + 1, true, target)
  }

  lemma {:induction false} ScanAgrees(s: string, i: nat, tokenIndex: nat, inToken: bool, target: nat)
    requires i <= |s| && tokenIndex == |Tokens(s[..i])| <= target + (if inToken then 1 else 0)
    requires inToken <==> 0 < i && !IsWhitespace(s[i - 1])
    requires inToken ==> tokenIndex <= target
    ensures match TokenStartFrom(s, i, tokenIndex, inToken, target)
            case Some(k) => StartsToken(s, k, target)
            case None => |Tokens(s)| <= target
    decreases |s| - i
  {
    if i == |s| {
      assert s[..i] == s;
    } else {
      TokensOfNext(s, i);
      if IsWhitespace(s[i]) {
        ScanAgrees(s, i + 1, tokenIndex, false, target);
      } else if inToken {
        ScanAgrees(s, i + 1, tokenIndex, true, target);
      } else if tokenIndex != target {
        ScanAgrees(s, i + 1, tokenIndex + 1, true, target);
      }
    }
  }

  lemma TokensAtStart(s: string, k: nat, target: nat)
    requires StartsToken(s, k, target)
    ensures target < |Tokens(s)|
    ensures Tokens(s[..k]) == Tokens(s)[..target] && Tokens(s[k..]) == Tokens(s)[target..]
  {
    assert s == s[..k] + s[k..];
    TokensOfAppend(s[..k], s[k..]);
    TokensStartingHere(s[k..]);
  }

  lemma StartIsUnique(s: string, k: nat, l: nat, target: nat)
    requires StartsToken(s, k, target) && StartsToken(s, l, target) && k <= l
    ensures k == l
  {
    if k < l {
      var middle := s[..l][k..];
      assert s[..l] == s[..k] + middle && middle[0] == s[k];
      TokensOfAppend(s[..k], middle);
      TokensStartingHere(middle);
    }
  }

  /** The scan agrees with tokenisation: it finds the token exactly if there is one, and cuts the text right before it. */
  lemma TokenStartAgrees(s: string, target: nat)
    ensures TokenStart(s, target).Some? <==> target < |Tokens(s)|
    ensures match TokenStart(s, target)
            case Some(k) =>
              && StartsToken(s, k, target)
              && Tokens(s[..k]) == Tokens(s)[..target]
              && Tokens(s[k..]) == Tokens(s)[target..]
            case None => true
  {
    assert s[..0] == [];
    ScanAgrees(s, 0, 0, false, target);
    match TokenStart(s, target)
    case Some(k) => TokensAtStart(s, k, target);
    case None =>
  }

  lemma TokenStartIs(s: string, k: nat, target: nat)
    requires StartsToken(s, k, target)
    ensures TokenStart(s, target) == Some(k)
  {
    TokenStartAgrees(s, target);
    TokensAtStart(s, k, target);
    var l := TokenStart(s, target).value;
    if k <= l {
      StartIsUnique(s, k, l, target);
    } else {
      StartIsUnique(s, l, k, target);
    }
  }

  /** whitespace_token_start: the byte offset of a token. */
  method WhitespaceTokenStart(input: string, target: nat) returns (offset: Option<nat>)
    ensures offset.Some? <==> target < |Tokens(input)|
    ensures match offset
            case Some(bytes) =>
              && TokenStart(input, target).Some?
              && bytes == ByteLength(input[..TokenStart(input, target).value])
              && FromByte(input, bytes) == Some(input[TokenStart(input, target).value..])
            case None => TokenStart(input, target) == None
  {
    TokenStartAgrees(input, target);
    var tokenIndex, inToken, bytes := 0, false, 0;
    for i := 0 to |input|
      invariant bytes == ByteLength(input[..i])
      invariant TokenStartFrom(input, i, tokenIndex, inToken, target) == TokenStart(input, target)
    {
      assert input[..i + 1][..i] == input[..i];
      if IsWhitespace(input[i]) {
        inToken := false;
      } else if !inToken {
        if tokenIndex == target {
          FromByteOfPrefix(input, i);
          return Some(bytes);
        }
        tokenIndex := tokenIndex + 1;
        inToken := true;
      }
      bytes := bytes + CharWidth(input[i]);
    }
    offset := None;
  }

  // Numbers

  const I32_MAX: nat := 0x7FFF_FFFF

  type Radix = r: nat | r == 10 || r == 16 witness 10

  function DigitValue(c: char, radix: Radix): Option<nat> {
    var value: int :=
      if '0' <= c <= '9' then c as int - '0' as int
      else if 'a' <= c <= 'z' then c as int - 'a' as int + 10
      else if 'A' <= c <= 'Z' then c as int - 'A' as int + 10
      else radix;
    if 0 <= value < radix then Some(value) else None
  }

  function DigitsValue(s: string, radix: Radix): Option<nat> {
    if s == [] then Some(0)
    else
      var high, low := DigitsValue(s[..|s| - 1], radix), DigitValue(s[|s| - 1], radix);
      if high.None? || low.None? then None
      else if radix == 10 then Some(high.value * 10 + low.value)
      else Some(high.value * 16 + low.value)
  }

  /** Unsigned from_str_radix: an optional plus sign, at least one digit, no overflow. */
  function ParseUnsigned(s: string, radix: Radix, max: nat): Option<nat> {
    var digits := if |s| > 1 && s[0] == '+' then s[1..] else s;
    if digits == [] then None
    else
      match DigitsValue(digits, radix)
      case Some(value) => if value <= max then Some(value) else None
      case None => None
  }

  /** str::parse::<i32> */
  function ParseI32(s: string): Option<int> {
    if |s| > 1 && s[0] == '-' then
      var magnitude := DigitsValue(s[1..], 10);
      if magnitude.None? || magnitude.value > I32_MAX + 1 then None
      else
        var value: int := magnitude.value;
        Some(-value)
    else
      var value := ParseUnsigned(s, 10, I32_MAX);
      if value.None? then None else Some(value.value)
  }

  function DigitChar(digit: nat): char
    requires digit < 16
  {
    "0123456789abcdef"[digit]
  }

  /** The digits of a number, without leading zeros; zero prints as one digit. */
  function Print(n: nat, radix: Radix): string
  {
    if n < radix then [DigitChar(n)] else Print(n / radix, radix) + [DigitChar(n % radix)]
  }

  function PrintDecimal(n: nat): string {
    Print(n, 10)
  }

  /** %0<width>x */
  function PrintHex(n: nat, width: nat): string {
    Zeros(width, |Print(n, 16)|) + Print(n, 16)
  }

  function Zeros(width: nat, used: nat): string {
    if width <= used then [] else ['0'] + Zeros(width - 1, used)
  }

  lemma DigitOf(digit: nat, radix: Radix)
    requires digit < radix
    ensures DigitValue(DigitChar(digit), radix) == Some(digit)
  {}

  lemma {:induction false} PrintReadsBack(n: nat, radix: Radix)
    ensures DigitsValue(Print(n, radix), radix) == Some(n)
  {
    var s := Print(n, radix);
    if n < radix {
      DigitOf(n, radix);
      assert s[..0] == [] && DigitsValue([], radix) == Some(0);
    } else {
      var high, low := n / radix, n % radix;
      assert n == if radix == 10 then high * 10 + low else high * 16 + low;
      PrintReadsBack(high, radix);
      DigitOf(low, radix);
      hide DigitValue, DigitChar;
      assert s == Print(high, radix) + [DigitChar(low)];
      assert s[..|s| - 1] == Print(high, radix) && s[|s| - 1] == DigitChar(low);
    }
  }

  lemma {:induction false} PrintIsNumber(n: nat, radix: Radix)
    ensures IsNumber(Print(n, radix))
  {
    if n < radix {
      DigitOf(n, 16);
    } else {
      PrintIsNumber(n / radix, radix);
      DigitOf(n % radix, 16);
    }
  }

  lemma {:induction false} LeadingZero(s: string)
    requires DigitsValue(s, 16).Some?
    ensures DigitsValue(['0'] + s, 16) == DigitsValue(s, 16)
  {
    var t := ['0'] + s;
    if s == [] {
      assert t[..0] == [];
    } else {
      LeadingZero(s[..|s| - 1]);
      assert t[..|t| - 1] == ['0'] + s[..|s| - 1];
    }
  }

  /** Text of digits only: a token without any of the separators the parsers look for. */
  ghost predicate IsNumber(s: string) {
    s != [] && forall i | 0 <= i < |s| :: DigitValue(s[i], 16).Some?
  }

  lemma NumberCons(s: string)
    requires IsNumber(s)
    ensures IsNumber(['0'] + s)
  {
    DigitOf(0, 16);
    var t := ['0'] + s;
    forall i | 0 <= i < |t| ensures DigitValue(t[i], 16).Some? {
      if 0 < i {
        assert t[i] == s[i - 1];
      }
    }
  }

  lemma {:induction false} PaddedDigits(width: nat, used: nat, s: string)
    requires DigitsValue(s, 16).Some? && IsNumber(s)
    ensures DigitsValue(Zeros(width, used) + s, 16) == DigitsValue(s, 16) && IsNumber(Zeros(width, used) + s)
  {
    if width <= used {
      assert [] + s == s;
    } else {
      PaddedDigits(width - 1, used, s);
      var t := Zeros(width - 1, used) + s;
      assert Zeros(width, used) + s == ['0'] + t;
      hide Zeros, DigitsValue;
      LeadingZero(t);
      NumberCons(t);
    }
  }

  lemma NumberIsPlain(s: string)
    requires IsNumber(s)
    ensures IsToken(s) && '-' !in s && ':' !in s && ' ' !in s && '(' !in s && ')' !in s && s[0] != '+' && Trim(s) == s
  {
    forall i | 0 <= i < |s|
      ensures !IsWhitespace(s[i]) && s[i] != '-' && s[i] != ':' && s[i] != ' ' && s[i] != '(' && s[i] != ')' && s[i] != '+'
    {
      assert DigitValue(s[i], 16).Some?;
    }
    TrimToken(s);
  }

  lemma HexRoundTrip(n: nat, width: nat, max: nat)
    requires n <= max
    ensures IsNumber(PrintHex(n, width)) && ParseUnsigned(PrintHex(n, width), 16, max) == Some(n)
  {
    PrintReadsBack(n, 16);
    PrintIsNumber(n, 16);
    PaddedDigits(width, |Print(n, 16)|, Print(n, 16));
    NumberIsPlain(PrintHex(n, width));
  }

  lemma DecimalRoundTrip(n: nat, max: nat)
    requires n <= max
    ensures IsNumber(PrintDecimal(n)) && ParseUnsigned(PrintDecimal(n), 10, max) == Some(n)
    ensures n <= I32_MAX ==> ParseI32(PrintDecimal(n)) == Some(n)
  {
    PrintReadsBack(n, 10);
    PrintIsNumber(n, 10);
    NumberIsPlain(PrintDecimal(n));
    assert PrintDecimal(n)[0] != '-';
  }
}
