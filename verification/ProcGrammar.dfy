/** Which texts the procfs parsers accept, and as what: the grammar of numbers, stat and maps lines, in both directions. */
module ProcGrammar {
  import opened Common
  import opened ProcText
  import opened ProcMapLine
  import opened ProcStat

  // Numbers

  function LowerChar(c: char): char {
    if 'A' <= c <= 'Z' then c - 'A' + 'a' else c
  }

  function Lower(s: string): (lower: string)
    ensures |lower| == |s| && forall i | 0 <= i < |s| :: lower[i] == LowerChar(s[i])
  {
    seq(|s|, i requires 0 <= i < |s| => LowerChar(s[i]))
  }

  /** The digits of the number, in either case, behind any zeros. */
  ghost predicate Written(s: string, n: nat, radix: Radix) {
    var digits := Print(n, radix);
    |digits| <= |s| && Lower(s) == Zeros(|s|, |digits|) + digits
  }

  ghost predicate Denotes(s: string, n: nat, radix: Radix) {
    Written(s, n, radix) || (s != [] && s[0] == '+' && Written(s[1..], n, radix))
  }

  ghost predicate DenotesSigned(s: string, n: int) {
    || (0 <= n <= I32_MAX && Denotes(s, n, 10))
    || (n <= 0 <= n + I32_MAX + 1 && s != [] && s[0] == '-' && Written(s[1..], -n, 10))
  }

  lemma CharMeans(c: char, d: nat, radix: Radix)
    requires d < radix
    ensures DigitValue(c, radix) == Some(d) <==> LowerChar(c) == DigitChar(d)
  {}

  lemma ZerosShift(width: nat, used: nat)
    requires used <= width
    ensures Zeros(width + 1, used + 1) == Zeros(width, used)
    decreases width
  {
    if used < width {
      ZerosShift(width - 1, used);
    }
  }

  lemma {:induction false} ZerosGrow(width: nat)
    requires width >= 1
    ensures |Zeros(width, 1)| == width - 1 && Zeros(width, 1) + ['0'] == Zeros(width + 1, 1)
  {
    if width > 1 {
      ZerosGrow(width - 1);
    }
  }

  lemma {:induction false} ZerosFill(width: nat, used: nat)
    requires used <= width
    ensures |Zeros(width, used)| == width - used
  {
    if used < width {
      ZerosFill(width - 1, used);
    }
  }

  lemma SameEnds(a: string, x: char, b: string, y: char)
    ensures a + [x] == b + [y] <==> a == b && x == y
  {
    if a + [x] == b + [y] {
      assert a == (a + [x])[..|a|] && b == (b + [y])[..|b|];
      assert x == (a + [x])[|a|] && y == (b + [y])[|b|];
    }
  }

  lemma SmallSnoc(h: string, c: char, n: nat, radix: Radix)
    requires h != [] && n < radix
    ensures Written(h + [c], n, radix) <==> Written(h, 0, radix) && LowerChar(c) == DigitChar(n)
  {
    assert Lower(h + [c]) == Lower(h) + [LowerChar(c)];
    assert Print(0, radix) == ['0'] && Print(n, radix) == [DigitChar(n)];
    ZerosGrow(|h|);
    SameEnds(Lower(h), LowerChar(c), Zeros(|h + [c]|, 1), DigitChar(n));
  }

  lemma LargeSnoc(h: string, c: char, n: nat, radix: Radix)
    requires h != [] && n >= radix
    ensures Written(h + [c], n, radix) <==> Written(h, n / radix, radix) && LowerChar(c) == DigitChar(n % radix)
  {
    var high, low := Print(n / radix, radix), DigitChar(n % radix);
    assert Lower(h + [c]) == Lower(h) + [LowerChar(c)];
    assert Print(n, radix) == high + [low];
    if |high| <= |h| {
      ZerosShift(|h|, |high|);
      assert Zeros(|h|, |high|) + (high + [low]) == (Zeros(|h|, |high|) + high) + [low];
      SameEnds(Lower(h), LowerChar(c), Zeros(|h|, |high|) + high, low);
    }
    hide Print, Lower, Zeros, DigitChar, LowerChar;
  }

  lemma OneDigitWritten(c: char, n: nat, radix: Radix)
    ensures Written([c], n, radix) <==> n < radix && LowerChar(c) == DigitChar(n)
  {
    assert Lower([c]) == [LowerChar(c)];
    if n >= radix {
      assert |Print(n / radix, radix)| >= 1;
    } else {
      assert Zeros(1, 1) + [DigitChar(n)] == [DigitChar(n)];
    }
  }

  lemma Positional(high: nat, low: nat, n: nat, radix: Radix)
    requires low < radix
    ensures (if radix == 10 then high * 10 + low else high * 16 + low) == n <==> high == n / radix && low == n % radix
  {}

  lemma SmallNumber(n: nat, radix: Radix)
    ensures n % radix < radix
    ensures n < radix ==> n / radix == 0 && n % radix == n
  {}

  lemma LastDigit(h: string, c: char, n: nat, radix: Radix)
    ensures DigitsValue(h + [c], radix) == Some(n) <==>
              DigitsValue(h, radix) == Some(n / radix) && DigitValue(c, radix) == Some(n % radix)
  {
    assert (h + [c])[..|h|] == h;
    var high, low := DigitsValue(h, radix), DigitValue(c, radix);
    if high.Some? && low.Some? {
      Positional(high.value, low.value, n, radix);
    }
    hide DigitValue;
  }

  /** A non-empty run of digits has the value it is written for. */
  lemma {:induction false} DigitsMean(s: string, n: nat, radix: Radix)
    requires s != []
    ensures DigitsValue(s, radix) == Some(n) <==> Written(s, n, radix)
  {
    var h, c := s[..|s| - 1], s[|s| - 1];
    assert s == h + [c];
    assert DigitsValue([], radix) == Some(0);
    hide Written, DigitValue, DigitChar, LowerChar, DigitsValue, Print;
    SmallNumber(n, radix);
    CharMeans(c, n % radix, radix);
    LastDigit(h, c, n, radix);
    var high, low := n / radix, n % radix;
    if h == [] {
      OneDigitWritten(c, n, radix);
    } else {
      DigitsMean(h, high, radix);
      if n < radix {
        SmallSnoc(h, c, n, radix);
      } else {
        LargeSnoc(h, c, n, radix);
      }
    }
  }

  lemma {:induction false} NoDigitNoValue(s: string, radix: Radix)
    requires s != [] && DigitValue(s[0], radix).None?
    ensures DigitsValue(s, radix).None?
  {
    if |s| > 1 {
      NoDigitNoValue(s[..|s| - 1], radix);
    }
  }

  lemma NothingWritten(n: nat, radix: Radix)
    ensures !Written([], n, radix)
  {}

  /** What an unsigned number may look like, and what it is read as. */
  lemma UnsignedIsRead(s: string, radix: Radix, max: nat, n: nat)
    ensures ParseUnsigned(s, radix, max) == Some(n) <==> n <= max && Denotes(s, n, radix)
  {
    NothingWritten(n, radix);
    if s != [] {
      DigitsMean(s, n, radix);
      if s[0] == '+' {
        NoDigitNoValue(s, radix);
        if |s| > 1 {
          DigitsMean(s[1..], n, radix);
        }
      }
    }
    hide Written, DigitsValue;
  }

  lemma SignedIsRead(s: string, n: int)
    ensures ParseI32(s) == Some(n) <==> DenotesSigned(s, n)
  {
    if n >= 0 {
      UnsignedIsRead(s, 10, I32_MAX, n);
    }
    if n <= 0 {
      NothingWritten(-n, 10);
    }
    if |s| > 0 && s[0] == '-' {
      NoDigitNoValue(s, 10);
      if n >= 0 {
        DigitsMean(s, n, 10);
      }
      if n <= 0 && |s| > 1 {
        DigitsMean(s[1..], -n, 10);
      }
    }
    hide Written, DigitsValue;
  }

  // Texts with a separator

  lemma {:induction false} FirstIndex(s: string, c: char)
    ensures var i := IndexOf(s, c); c !in s[..i] && (i < |s| ==> s[i] == c)
  {
    if s != [] && s[0] != c {
      FirstIndex(s[1..], c);
    }
  }

  lemma {:induction false} LastIndex(s: string, c: char)
    ensures var i := AfterLast(s, c); (i > 0 ==> s[i - 1] == c) && c !in s[i..]
  {
    if s != [] && s[|s| - 1] != c {
      LastIndex(s[..|s| - 1], c);
    }
  }

  lemma SplitSays(s: string, c: char, head: string, tail: string)
    ensures SplitOnce(s, c) == Some((head, tail)) <==> s == head + [c] + tail && c !in head
  {
    FirstIndex(s, c);
    if s == head + [c] + tail && c !in head {
      SplitOnceIs(head, c, tail);
    }
  }

  // Lines of maps

  function ShowPerms(read: bool, write: bool, execute: bool, shared: bool): string {
    [if read then 'r' else '-', if write then 'w' else '-', if execute then 'x' else '-', if shared then 's' else 'p']
  }

  ghost predicate ArePerms(perms: string) {
    exists read, write, execute, shared :: perms == ShowPerms(read, write, execute, shared)
  }

  lemma PermsAreRead(perms: string)
    ensures PermsFit(perms) <==> ArePerms(perms)
  {
    if PermsFit(perms) {
      assert perms == ShowPerms(perms[0] == 'r', perms[1] == 'w', perms[2] == 'x', perms[3] == 's');
    }
  }

  ghost predicate IsUnsigned(s: string, radix: Radix) {
    exists n: nat :: n <= U64_MAX && Denotes(s, n, radix)
  }

  lemma UnsignedIsSome(s: string, radix: Radix)
    ensures ParseUnsigned(s, radix, U64_MAX).Some? <==> IsUnsigned(s, radix)
  {
    hide ParseUnsigned, Denotes;
    if ParseUnsigned(s, radix, U64_MAX).Some? {
      UnsignedIsRead(s, radix, U64_MAX, ParseUnsigned(s, radix, U64_MAX).value);
    }
    if IsUnsigned(s, radix) {
      var n: nat :| n <= U64_MAX && Denotes(s, n, radix);
      UnsignedIsRead(s, radix, U64_MAX, n);
    }
  }

  ghost predicate DeviceWritten(device: string, major: string, minor: string) {
    device == major + [':'] + minor && ':' !in major && IsUnsigned(major, 16) && IsUnsigned(minor, 16)
  }

  ghost predicate IsDevice(device: string) {
    exists major, minor :: DeviceWritten(device, major, minor)
  }

  lemma DeviceIsRead(device: string)
    ensures DeviceFits(device) <==> IsDevice(device)
  {
    hide ParseUnsigned, IsUnsigned, SplitOnce;
    if DeviceFits(device) {
      var (major, minor) := SplitOnce(device, ':').value;
      SplitSays(device, ':', major, minor);
      UnsignedIsSome(major, 16);
      UnsignedIsSome(minor, 16);
      assert DeviceWritten(device, major, minor);
    }
    if IsDevice(device) {
      var major, minor :| DeviceWritten(device, major, minor);
      SplitSays(device, ':', major, minor);
      UnsignedIsSome(major, 16);
      UnsignedIsSome(minor, 16);
    }
  }

  ghost predicate PathWritten(rest: string, path: string, k: nat) {
    StartsToken(rest, k, 4) && path == rest[k..]
  }

  ghost predicate IsPath(rest: string, path: string) {
    exists k :: PathWritten(rest, path, k)
  }

  lemma PathIsRead(rest: string, path: string)
    requires |Tokens(rest)| > 4
    ensures TokenStart(rest, 4).Some? && (path == rest[TokenStart(rest, 4).value..] <==> IsPath(rest, path))
  {
    hide StartsToken, TokenStart;
    TokenStartAgrees(rest, 4);
    var start := TokenStart(rest, 4).value;
    if path == rest[start..] {
      assert PathWritten(rest, path, start);
    }
    if IsPath(rest, path) {
      var k :| PathWritten(rest, path, k);
      TokenStartIs(rest, k, 4);
    }
  }

  /** Permissions, offset, device and inode, and whatever follows them from its first character on. */
  ghost predicate FieldsWritten(rest: string, perms: string, path: Option<string>) {
    var tokens := Tokens(rest);
    && |tokens| >= 4
    && tokens[0] == perms && ArePerms(perms)
    && IsUnsigned(tokens[1], 16) && IsDevice(tokens[2]) && IsUnsigned(tokens[3], 10)
    && (if |tokens| == 4 then path == None
        else path.Some? && IsPath(rest, path.value))
  }

  lemma FieldsAreRead(rest: string, perms: string, path: Option<string>)
    ensures ParseRest(rest) == Some((perms, path)) <==> FieldsWritten(rest, perms, path)
  {
    var tokens := Tokens(rest);
    hide ParseUnsigned, IsUnsigned, DeviceFits, IsDevice, PermsFit, ArePerms, TokenStart, IsPath;
    if |tokens| >= 4 {
      PermsAreRead(tokens[0]);
      UnsignedIsSome(tokens[1], 16);
      DeviceIsRead(tokens[2]);
      UnsignedIsSome(tokens[3], 10);
    }
    if |tokens| > 4 {
      PathIsRead(rest, if path.Some? then path.value else []);
    }
  }

  ghost predicate RangeWritten(segment: string, start: nat, end: nat, startText: string, endText: string) {
    && segment == startText + ['-'] + endText && '-' !in startText
    && Denotes(Trim(startText), start, 16) && Denotes(Trim(endText), end, 16)
    && start < end <= U64_MAX
  }

  ghost predicate IsRange(segment: string, start: nat, end: nat) {
    exists startText, endText :: RangeWritten(segment, start, end, startText, endText)
  }

  lemma RangeIsRead(segment: string, start: nat, end: nat)
    ensures ParseRange(segment) == Some((start, end)) <==> IsRange(segment, start, end)
  {
    hide ParseUnsigned, Denotes, SplitOnce, Trim;
    if ParseRange(segment) == Some((start, end)) {
      var (startText, endText) := SplitOnce(segment, '-').value;
      SplitSays(segment, '-', startText, endText);
      UnsignedIsRead(Trim(startText), 16, U64_MAX, start);
      UnsignedIsRead(Trim(endText), 16, U64_MAX, end);
      assert RangeWritten(segment, start, end, startText, endText);
    }
    if IsRange(segment, start, end) {
      var startText, endText :| RangeWritten(segment, start, end, startText, endText);
      SplitSays(segment, '-', startText, endText);
      UnsignedIsRead(Trim(startText), 16, U64_MAX, start);
      UnsignedIsRead(Trim(endText), 16, U64_MAX, end);
    }
  }

  ghost predicate LineWritten(line: string, parsed: MapLine, segment: string, tail: string) {
    && line == segment + [' '] + tail && ' ' !in segment
    && IsRange(Trim(segment), parsed.start, parsed.end)
    && FieldsWritten(TrimStart(tail), parsed.perms, parsed.path)
  }

  ghost predicate IsMapLine(line: string, parsed: MapLine) {
    exists segment, tail :: LineWritten(line, parsed, segment, tail)
  }

  /** A line of maps is accepted, as this mapping, exactly if it is written so. */
  lemma MapLineIsRead(line: string, parsed: MapLine)
    ensures ParseMapLine(line) == Some(parsed) <==> IsMapLine(line, parsed)
  {
    hide ParseRange, ParseRest, IsRange, FieldsWritten, Trim, TrimStart, SplitOnce;
    if ParseMapLine(line) == Some(parsed) {
      var (segment, tail) := SplitOnce(line, ' ').value;
      SplitSays(line, ' ', segment, tail);
      RangeIsRead(Trim(segment), parsed.start, parsed.end);
      FieldsAreRead(TrimStart(tail), parsed.perms, parsed.path);
      assert LineWritten(line, parsed, segment, tail);
    }
    if IsMapLine(line, parsed) {
      var segment, tail :| LineWritten(line, parsed, segment, tail);
      SplitSays(line, ' ', segment, tail);
      RangeIsRead(Trim(segment), parsed.start, parsed.end);
      FieldsAreRead(TrimStart(tail), parsed.perms, parsed.path);
    }
  }

  // stat

  /** The fields behind the command name, numbered as in proc(5) less three. */
  ghost predicate ValuesWritten(fields: seq<string>, stat: Stat, utime: nat, stime: nat) {
    && |fields| > 36 && fields[0] != []
    && stat.state == FromChar(fields[0][0]) && DenotesSigned(fields[1], stat.ppid)
    && utime <= U64_MAX && Denotes(fields[11], utime, 10)
    && stime <= U64_MAX && Denotes(fields[12], stime, 10)
    && stat.processTicks == (if utime + stime > U64_MAX then U64_MAX else utime + stime)
    && stat.threads <= U32_MAX && Denotes(fields[17], stat.threads, 10)
    && stat.startTimeTicks <= U64_MAX && Denotes(fields[19], stat.startTimeTicks, 10)
    && stat.vsize <= U64_MAX && Denotes(fields[20], stat.vsize, 10)
    && stat.rssPages <= U64_MAX && Denotes(fields[21], stat.rssPages, 10)
    && stat.lastCpu <= U32_MAX && Denotes(fields[36], stat.lastCpu, 10)
  }

  ghost predicate AreValues(fields: seq<string>, stat: Stat) {
    exists utime, stime :: ValuesWritten(fields, stat, utime, stime)
  }

  lemma ValuesAreSaid(fields: seq<string>, stat: Stat, utime: nat, stime: nat)
    requires |fields| > 36
    ensures ParseI32(fields[1]) == Some(stat.ppid) <==> DenotesSigned(fields[1], stat.ppid)
    ensures ParseUnsigned(fields[11], 10, U64_MAX) == Some(utime) <==> utime <= U64_MAX && Denotes(fields[11], utime, 10)
    ensures ParseUnsigned(fields[12], 10, U64_MAX) == Some(stime) <==> stime <= U64_MAX && Denotes(fields[12], stime, 10)
    ensures ParseUnsigned(fields[17], 10, U32_MAX) == Some(stat.threads) <==> stat.threads <= U32_MAX && Denotes(fields[17], stat.threads, 10)
    ensures ParseUnsigned(fields[19], 10, U64_MAX) == Some(stat.startTimeTicks) <==>
              stat.startTimeTicks <= U64_MAX && Denotes(fields[19], stat.startTimeTicks, 10)
    ensures ParseUnsigned(fields[20], 10, U64_MAX) == Some(stat.vsize) <==> stat.vsize <= U64_MAX && Denotes(fields[20], stat.vsize, 10)
    ensures ParseUnsigned(fields[21], 10, U64_MAX) == Some(stat.rssPages) <==> stat.rssPages <= U64_MAX && Denotes(fields[21], stat.rssPages, 10)
    ensures ParseUnsigned(fields[36], 10, U32_MAX) == Some(stat.lastCpu) <==> stat.lastCpu <= U32_MAX && Denotes(fields[36], stat.lastCpu, 10)
  {
    hide ParseUnsigned, ParseI32, Denotes, DenotesSigned;
    SignedIsRead(fields[1], stat.ppid);
    UnsignedIsRead(fields[11], 10, U64_MAX, utime);
    UnsignedIsRead(fields[12], 10, U64_MAX, stime);
    UnsignedIsRead(fields[17], 10, U32_MAX, stat.threads);
    UnsignedIsRead(fields[19], 10, U64_MAX, stat.startTimeTicks);
    UnsignedIsRead(fields[20], 10, U64_MAX, stat.vsize);
    UnsignedIsRead(fields[21], 10, U64_MAX, stat.rssPages);
    UnsignedIsRead(fields[36], 10, U32_MAX, stat.lastCpu);
  }

  lemma ValuesAreRead(fields: seq<string>, stat: Stat)
    ensures ParseFields(stat.pid, stat.comm, fields) == Some(stat) <==> AreValues(fields, stat)
  {
    hide ParseUnsigned, ParseI32, Denotes, DenotesSigned, FromChar;
    if ParseFields(stat.pid, stat.comm, fields) == Some(stat) {
      var utime, stime := ParseUnsigned(fields[11], 10, U64_MAX).value, ParseUnsigned(fields[12], 10, U64_MAX).value;
      ValuesAreSaid(fields, stat, utime, stime);
      assert ValuesWritten(fields, stat, utime, stime);
    }
    if AreValues(fields, stat) {
      var utime, stime :| ValuesWritten(fields, stat, utime, stime);
      ValuesAreSaid(fields, stat, utime, stime);
    }
  }

  /** The command name is what stands between the first opening and the last closing parenthesis. */
  ghost predicate StatWritten(text: string, stat: Stat, pidText: string, tail: string) {
    && Trim(text) == pidText + ['('] + stat.comm + [')', ' '] + tail
    && '(' !in pidText && ')' !in tail
    && DenotesSigned(Trim(pidText), stat.pid)
    && tail != [] && !IsWhitespace(tail[0])
    && AreValues(Tokens(tail), stat)
  }

  ghost predicate IsStat(text: string, stat: Stat) {
    exists pidText, tail :: StatWritten(text, stat, pidText, tail)
  }

  lemma {:induction false} TrimStartEnds(s: string)
    ensures var t := TrimStart(s); t != [] ==> !IsWhitespace(t[0])
  {
    if s != [] && IsWhitespace(s[0]) {
      TrimStartEnds(s[1..]);
    }
  }

  lemma {:induction false} TrimEndEnds(s: string)
    ensures var t := TrimEnd(s); t <= s && (t != [] ==> !IsWhitespace(t[|t| - 1]))
  {
    if s != [] && IsWhitespace(s[|s| - 1]) {
      TrimEndEnds(s[..|s| - 1]);
    }
  }

  lemma TrimEnds(s: string)
    ensures var t := Trim(s); t != [] ==> !IsWhitespace(t[0]) && !IsWhitespace(t[|t| - 1])
  {
    TrimStartEnds(s);
    TrimEndEnds(TrimStart(s));
  }

  /** The parts of a text between the first opening and the last closing parenthesis. */
  lemma PartsLocated(head: string, comm: string, tail: string)
    requires '(' !in head && ')' !in tail
    ensures var content := head + ['('] + comm + [')', ' '] + tail;
            var open := |head|; var close := |head| + |comm| + 2;
            && |content| == close + 1 + |tail|
            && IndexOf(content, '(') == open && AfterLast(content, ')') == close
            && content[..open] == head && content[open + 1..close - 1] == comm
            && content[close..] == [' '] + tail
  {
    var content := head + ['('] + comm + [')', ' '] + tail;
    var close := |head| + |comm| + 2;
    assert content[close - 1] == ')' && content[close..] == [' '] + tail;
    forall j | close <= j < |content| ensures content[j] != ')' {
      assert content[j] == content[close..][j - close];
    }
    IndexOfIs(content, '(', |head|);
    AfterLastIs(content, ')', close);
  }

  lemma CutInFive(s: string, open: nat, close: nat)
    requires open < close - 1 && close < |s| && s[open] == '(' && s[close - 1] == ')' && s[close] == ' '
    ensures s == s[..open] + ['('] + s[open + 1..close - 1] + [')', ' '] + s[close + 1..]
  {
    assert s[..open] + ['('] == s[..open + 1];
    assert s[..open + 1] + s[open + 1..close - 1] == s[..close - 1];
    assert s[..close - 1] + [')', ' '] == s[..close + 1];
    assert s[..close + 1] + s[close + 1..] == s;
  }

  lemma NotBehind(s: string, c: char, i: nat)
    requires i < |s| && c !in s[i..]
    ensures c !in s[i + 1..]
  {
    assert s[i..][1..] == s[i + 1..];
  }

  lemma TailIsTrimmed(text: string, head: string, tail: string)
    requires Trim(text) == head + tail && tail != [] && !IsWhitespace(tail[0])
    ensures Trim(tail) == tail
  {
    TrimEnds(text);
    assert tail[|tail| - 1] == Trim(text)[|Trim(text)| - 1];
    TrimToken(tail);
  }

  lemma WrittenIsRead(text: string, stat: Stat, pidText: string, tail: string)
    requires StatWritten(text, stat, pidText, tail)
    ensures ParseStat(text) == Some(stat)
  {
    hide Trim, IndexOf, AfterLast, ParseI32, ParseFields, Tokens, IsWhitespace, DenotesSigned, AreValues;
    PartsLocated(pidText, stat.comm, tail);
    TailIsTrimmed(text, pidText + ['('] + stat.comm + [')', ' '], tail);
    SignedIsRead(Trim(pidText), stat.pid);
    ValuesAreRead(Tokens(tail), stat);
    assert ([' '] + tail)[1..] == tail;
  }

  lemma ReadIsWritten(text: string, stat: Stat) returns (pidText: string, tail: string)
    requires ParseStat(text) == Some(stat)
    ensures StatWritten(text, stat, pidText, tail)
  {
    hide Trim, IndexOf, AfterLast, ParseI32, ParseFields, Tokens, IsWhitespace, DenotesSigned, AreValues;
    var content := Trim(text);
    var open, close := IndexOf(content, '('), AfterLast(content, ')');
    pidText, tail := content[..open], content[close + 1..];
    assert content[close..][1..] == tail;
    FirstIndex(content, '(');
    LastIndex(content, ')');
    CutInFive(content, open, close);
    NotBehind(content, ')', close);
    FieldsKeepNames(ParseI32(Trim(pidText)).value, content[open + 1..close - 1], Tokens(Trim(tail)));
    TailIsTrimmed(text, pidText + ['('] + stat.comm + [')', ' '], tail);
    SignedIsRead(Trim(pidText), stat.pid);
    ValuesAreRead(Tokens(tail), stat);
  }

  lemma FieldsKeepNames(pid: int, comm: string, fields: seq<string>)
    ensures ParseFields(pid, comm, fields).Some? ==>
              ParseFields(pid, comm, fields).value.pid == pid && ParseFields(pid, comm, fields).value.comm == comm
  {}

  /** A stat text is accepted, with these values, exactly if it is written so. */
  lemma StatIsRead(text: string, stat: Stat)
    ensures ParseStat(text) == Some(stat) <==> IsStat(text, stat)
  {
    hide ParseStat, StatWritten;
    if ParseStat(text) == Some(stat) {
      var pidText, tail := ReadIsWritten(text, stat);
    }
    if IsStat(text, stat) {
      var pidText, tail :| StatWritten(text, stat, pidText, tail);
      WrittenIsRead(text, stat, pidText, tail);
    }
  }
}
