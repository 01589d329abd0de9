/** A whole /proc/<pid>/maps: printing mappings line by line, and reading them back. */
module ProcMapsFile {
  import opened Common
  import opened ProcText
  import opened ProcMapLine
  import opened ProcMaps

  /** What the file shows of these mappings. */
  function PrintFile(vmas: seq<Vma>): string {
    if vmas == [] then [] else PrintVma(vmas[0]) + (['\n'] + PrintFile(vmas[1..]))
  }

  function PrintedLines(vmas: seq<Vma>): seq<string> {
    if vmas == [] then [] else [PrintVma(vmas[0])] + PrintedLines(vmas[1..])
  }

  function ToMapLine(vma: Vma): MapLine {
    MapLine(vma.start, vma.end, vma.perms, vma.path)
  }

  function ToMapLines(vmas: seq<Vma>): (maps: seq<MapLine>)
    ensures |maps| == |vmas|
    ensures forall i | 0 <= i < |vmas| :: maps[i] == ToMapLine(vmas[i])
  {
    seq(|vmas|, i requires 0 <= i < |vmas| => ToMapLine(vmas[i]))
  }

  predicate NoLineFeed(s: string) {
    '\n' !in s
  }

  /** A mapping whose path does not break its line; the kernel escapes line feeds. */
  ghost predicate OneLine(vma: Vma) {
    && ProperVma(vma)
    && (vma.path.Some? ==> NoLineFeed(vma.path.value) && StripCarriageReturn(vma.path.value) == vma.path.value)
  }

  predicate PlainPath(vma: Vma) {
    vma.path.Some? ==> vma.path.value != [] && !IsWhitespace(vma.path.value[0])
  }

  // One printed line

  lemma NoLineFeedIn(a: string, b: string)
    requires NoLineFeed(a) && NoLineFeed(b)
    ensures NoLineFeed(a + b)
  {}

  lemma TokenHasNoLineFeed(s: string)
    requires IsToken(s)
    ensures NoLineFeed(s)
  {
    assert IsWhitespace('\n');
  }

  lemma PrintedNumber(n: nat, width: nat)
    requires n <= U64_MAX
    ensures NoLineFeed(PrintHex(n, width))
  {
    HexRoundTrip(n, width, U64_MAX);
    hide PrintHex, ParseUnsigned, IsNumber, Trim;
    NumberIsPlain(PrintHex(n, width));
    TokenHasNoLineFeed(PrintHex(n, width));
  }

  lemma PrintedInode(n: nat)
    requires n <= U64_MAX
    ensures NoLineFeed(PrintDecimal(n))
  {
    DecimalRoundTrip(n, U64_MAX);
    hide PrintDecimal, ParseUnsigned, IsNumber, Trim;
    NumberIsPlain(PrintDecimal(n));
    TokenHasNoLineFeed(PrintDecimal(n));
  }

  lemma FieldsHaveNoLineFeed(vma: Vma)
    requires ProperVma(vma)
    ensures NoLineFeed(PrintFields(vma))
  {
    PermsArePlain(vma.perms);
    TokenHasNoLineFeed(vma.perms);
    PrintedNumber(vma.offset, 8);
    PrintedInode(vma.inode);
    PrintedDeviceParses(vma);
    TokenHasNoLineFeed(PrintDevice(vma));
    SpacesAreWhite(vma.gap + 1);
    var offset, device, inode, gap := PrintHex(vma.offset, 8), PrintDevice(vma), PrintDecimal(vma.inode), Spaces(vma.gap + 1);
    assert NoLineFeed(gap) && NoLineFeed([' ']);
    hide NoLineFeed, PrintHex, PrintDecimal, PrintDevice, Spaces, IsToken, DeviceFits, PermsFit;
    NoLineFeedIn(inode, gap);
    NoLineFeedIn([' '], inode + gap);
    NoLineFeedIn(device, [' '] + (inode + gap));
    NoLineFeedIn([' '], device + ([' '] + (inode + gap)));
    NoLineFeedIn(offset, [' '] + (device + ([' '] + (inode + gap))));
    NoLineFeedIn([' '], offset + ([' '] + (device + ([' '] + (inode + gap)))));
    NoLineFeedIn(vma.perms, [' '] + (offset + ([' '] + (device + ([' '] + (inode + gap))))));
  }

  lemma RangeHasNoLineFeed(vma: Vma)
    requires ProperVma(vma)
    ensures NoLineFeed(PrintRange(vma))
  {
    PrintedNumber(vma.start, 8);
    PrintedNumber(vma.end, 8);
    assert NoLineFeed(['-']);
    hide NoLineFeed, PrintHex;
    NoLineFeedIn(PrintHex(vma.start, 8), ['-']);
    NoLineFeedIn(PrintHex(vma.start, 8) + ['-'], PrintHex(vma.end, 8));
  }

  /** Neither the printed head nor the path ends in a carriage return, so neither does the line. */
  lemma StripsNothing(head: string, path: string)
    requires head != [] && head[|head| - 1] == ' ' && StripCarriageReturn(path) == path
    ensures StripCarriageReturn(head + path) == head + path
  {
    assert path != [] ==> |path[..|path| - 1]| < |path|;
    assert path == [] || path[|path| - 1] != '\r';
  }

  lemma JoinedIsOneLine(range: string, fields: string, path: string)
    requires NoLineFeed(range) && NoLineFeed(fields) && NoLineFeed(path)
    requires fields != [] && fields[|fields| - 1] == ' ' && StripCarriageReturn(path) == path
    ensures var line := range + [' '] + (fields + path);
            line != [] && NoLineFeed(line) && StripCarriageReturn(line) == line
  {
    var line, head := range + [' '] + (fields + path), range + [' '] + fields;
    assert line == head + path;
    hide StripCarriageReturn;
    StripsNothing(head, path);
  }

  lemma PrintedIsOneLine(vma: Vma)
    requires OneLine(vma)
    ensures PrintVma(vma) != [] && NoLineFeed(PrintVma(vma)) && StripCarriageReturn(PrintVma(vma)) == PrintVma(vma)
  {
    assert NoLineFeed(PrintPath(vma)) && StripCarriageReturn(PrintPath(vma)) == PrintPath(vma);
    hide NoLineFeed, PrintRange, PrintFields, PrintPath, ProperVma, StripCarriageReturn;
    RangeHasNoLineFeed(vma);
    FieldsHaveNoLineFeed(vma);
    PrintedFieldsEnds(vma);
    JoinedIsOneLine(PrintRange(vma), PrintFields(vma), PrintPath(vma));
  }

  // All lines

  lemma CutLine(line: string, rest: string)
    requires NoLineFeed(line)
    ensures TextLines(line + (['\n'] + rest)) == [StripCarriageReturn(line)] + TextLines(rest)
  {
    var content := line + (['\n'] + rest);
    IndexOfIs(content, '\n', |line|);
    assert content[..|line|] == line && content[|line| + 1..] == rest;
    hide IndexOf, StripCarriageReturn;
  }

  function Terminated(lines: seq<string>): string {
    if lines == [] then [] else lines[0] + (['\n'] + Terminated(lines[1..]))
  }

  lemma NoFeedFound(s: string)
    requires NoLineFeed(s)
    ensures IndexOf(s, '\n') == |s|
  {
    if s != [] {
      NoFeedFound(s[1..]);
    }
  }

  /** One carriage return at the end of the line is not read. */
  predicate ReadsAs(line: string, read: string) {
    line == read + ['\r'] || (line == read && (line == [] || line[|line| - 1] != '\r'))
  }

  predicate AllRead(lines: seq<string>, last: string, read: seq<string>) {
    && |read| == |lines| + (if last == [] then 0 else 1)
    && (last != [] ==> read[|lines|] == last)
    && forall i | 0 <= i < |lines| :: ReadsAs(lines[i], read[i])
  }

  lemma OneMoreRead(lines: seq<string>, last: string, first: string, read: seq<string>)
    requires lines != [] && ReadsAs(lines[0], first) && AllRead(lines[1..], last, read)
    ensures AllRead(lines, last, [first] + read)
  {
    forall i | 1 <= i < |lines| ensures ReadsAs(lines[i], ([first] + read)[i]) {
      assert lines[i] == lines[1..][i - 1];
    }
  }

  /** Every line is read once and in its place, without one carriage return at its end if it is terminated; what follows the
      last line feed is one more line, exactly as it is, unless it is empty. */
  lemma {:induction false} LinesAreRead(lines: seq<string>, last: string)
    requires NoLineFeed(last) && forall i | 0 <= i < |lines| :: NoLineFeed(lines[i])
    ensures AllRead(lines, last, TextLines(Terminated(lines) + last))
  {
    if lines == [] {
      NoFeedFound(last);
      assert Terminated(lines) + last == last;
      assert TextLines(last) == if last == [] then [] else [last];
    } else {
      var rest := Terminated(lines[1..]) + last;
      assert ReadsAs(lines[0], StripCarriageReturn(lines[0]));
      assert Terminated(lines) + last == lines[0] + (['\n'] + rest);
      hide TextLines, NoLineFeed, ReadsAs, AllRead, StripCarriageReturn, Terminated;
      LinesAreRead(lines[1..], last);
      CutLine(lines[0], rest);
      OneMoreRead(lines, last, StripCarriageReturn(lines[0]), TextLines(rest));
    }
  }

  lemma {:induction false} FileIsItsLines(vmas: seq<Vma>)
    requires forall i | 0 <= i < |vmas| :: OneLine(vmas[i])
    ensures TextLines(PrintFile(vmas)) == PrintedLines(vmas)
  {
    if vmas != [] {
      hide TextLines, OneLine, PrintVma, StripCarriageReturn, NoLineFeed;
      PrintedIsOneLine(vmas[0]);
      CutLine(PrintVma(vmas[0]), PrintFile(vmas[1..]));
      FileIsItsLines(vmas[1..]);
    } else {
      assert TextLines([]) == [];
    }
  }

  lemma {:induction false} ValidFirst(line: string, lines: seq<string>)
    requires line != [] && ParseMapLine(line).Some?
    ensures ValidMaps([line] + lines) == [ParseMapLine(line).value] + ValidMaps(lines)
    ensures NonEmptyLines([line] + lines) == 1 + NonEmptyLines(lines)
  {
    hide ParseMapLine;
    var all := [line] + lines;
    if lines == [] {
      assert all[..0] == [];
    } else {
      ValidFirst(line, lines[..|lines| - 1]);
      assert all[..|all| - 1] == [line] + lines[..|lines| - 1];
    }
  }

  /** Range and permissions are those of the mapping, and the path too, exactly where it is plain. */
  predicate ReadsBack(map_: MapLine, vma: Vma) {
    && map_.start == vma.start && map_.end == vma.end && map_.perms == vma.perms
    && (map_.path == vma.path <==> PlainPath(vma))
  }

  lemma PrintedReadsBack(vma: Vma)
    requires ProperVma(vma)
    ensures ParseMapLine(PrintVma(vma)).Some? && ReadsBack(ParseMapLine(PrintVma(vma)).value, vma)
  {
    PrintedVmaParses(vma);
    hide ParseMapLine, PrintVma;
  }

  lemma {:induction false} PrintedLinesAreValid(vmas: seq<Vma>)
    requires forall i | 0 <= i < |vmas| :: OneLine(vmas[i])
    ensures var maps := ValidMaps(PrintedLines(vmas));
            && |maps| == |vmas| == NonEmptyLines(PrintedLines(vmas))
            && forall i | 0 <= i < |vmas| :: ReadsBack(maps[i], vmas[i])
  {
    if vmas != [] {
      PrintedLinesAreValid(vmas[1..]);
      PrintedIsOneLine(vmas[0]);
      PrintedReadsBack(vmas[0]);
      hide PrintVma, ParseMapLine, ProperVma, ReadsBack, ValidMaps, NonEmptyLines, NoLineFeed, StripCarriageReturn;
      var line := PrintVma(vmas[0]);
      ValidFirst(line, PrintedLines(vmas[1..]));
      assert PrintedLines(vmas) == [line] + PrintedLines(vmas[1..]);
      forall i | 0 <= i < |vmas| ensures ReadsBack(ValidMaps(PrintedLines(vmas))[i], vmas[i]) {
        if i > 0 {
          assert vmas[i] == vmas[1..][i - 1];
        }
      }
    }
  }

  lemma AllPlainMeansEqual(maps: seq<MapLine>, vmas: seq<Vma>)
    requires |maps| == |vmas| && forall i | 0 <= i < |vmas| :: ReadsBack(maps[i], vmas[i])
    ensures maps == ToMapLines(vmas) <==> forall i | 0 <= i < |vmas| :: PlainPath(vmas[i])
  {
    hide PlainPath;
    if maps == ToMapLines(vmas) {
      forall i | 0 <= i < |vmas| ensures PlainPath(vmas[i]) {
        assert maps[i] == ToMapLine(vmas[i]) && ReadsBack(maps[i], vmas[i]);
      }
    } else {
      var i :| 0 <= i < |vmas| && maps[i] != ToMapLine(vmas[i]);
      assert ReadsBack(maps[i], vmas[i]);
    }
  }

  lemma {:induction false} SameRangesSameSize(a: seq<MapLine>, b: seq<MapLine>)
    requires |a| == |b| && forall i | 0 <= i < |a| :: a[i].start == b[i].start && a[i].end == b[i].end
    ensures TotalSize(a) == TotalSize(b)
  {
    if a != [] {
      SameRangesSameSize(a[..|a| - 1], b[..|b| - 1]);
    }
  }

  lemma ApartReadsBack(maps: seq<MapLine>, vmas: seq<Vma>)
    requires |maps| == |vmas| && forall i | 0 <= i < |vmas| :: ReadsBack(maps[i], vmas[i])
    requires PairwiseApart(ToMapLines(vmas))
    ensures PairwiseApart(maps) && TotalSize(maps) == TotalSize(ToMapLines(vmas))
  {
    forall i | 0 <= i < |maps| ensures maps[i].start == ToMapLines(vmas)[i].start && maps[i].end == ToMapLines(vmas)[i].end {
      assert ReadsBack(maps[i], vmas[i]);
    }
    forall i, j | 0 <= i < j < |maps| ensures Apart(maps[i], maps[j]) {
      assert Apart(ToMapLines(vmas)[i], ToMapLines(vmas)[j]);
    }
    SameRangesSameSize(maps, ToMapLines(vmas));
  }

  /** Reading a whole file undoes printing it: no line is skipped and every mapping is counted; all of them come back
      exactly if no path starts with white space; and the histogram of mappings that do not overlap is exact. */
  lemma PrintedFileParses(vmas: seq<Vma>)
    requires forall i | 0 <= i < |vmas| :: OneLine(vmas[i])
    ensures var lines := TextLines(PrintFile(vmas)); var maps := ValidMaps(lines);
            && NonEmptyLines(lines) == |maps| == |vmas|
            && (maps == ToMapLines(vmas) <==> forall i | 0 <= i < |vmas| :: PlainPath(vmas[i]))
            && BucketCounts(HistogramOf(maps, KINDS)) == |vmas|
            && (PairwiseApart(ToMapLines(vmas)) ==> BucketSizes(HistogramOf(maps, KINDS)) == TotalSize(ToMapLines(vmas)))
  {
    FileIsItsLines(vmas);
    PrintedLinesAreValid(vmas);
    hide OneLine, HistogramOf, BucketSizes, BucketCounts, ValidMaps, NonEmptyLines, PrintedLines, PrintFile, TextLines;
    hide ReadsBack, PlainPath, ToMapLines, PairwiseApart, TotalSize, TotalOf, FitsAddressSpace;
    var maps := ValidMaps(PrintedLines(vmas));
    AllPlainMeansEqual(maps, vmas);
    HistogramConserves(maps);
    if PairwiseApart(ToMapLines(vmas)) {
      ApartReadsBack(maps, vmas);
      ValidMapsFit(PrintedLines(vmas));
      DisjointRangesNeverOverflow(maps);
    }
  }

  /** The entries shown for a printed file are those of its mappings, at the positions of the largest ones: their bounds
      and sizes always, and everything else where no path starts with white space. */
  lemma PrintedTopsShow(vmas: seq<Vma>, i: nat)
    requires forall k | 0 <= k < |vmas| :: OneLine(vmas[k])
    requires i < |TopPositions(ValidMaps(TextLines(PrintFile(vmas))))|
    ensures var maps := ValidMaps(TextLines(PrintFile(vmas)));
            var p := TopPositions(maps)[i]; var top := Truncate(ToTop(maps[p]));
            && p < |vmas|
            && ShowsRange(top, ToMapLine(vmas[p]))
            && (PlainPath(vmas[p]) ==> ShowsMapping(top, ToMapLine(vmas[p])))
  {
    FileIsItsLines(vmas);
    PrintedLinesAreValid(vmas);
    hide OneLine, PlainPath, Truncate, ToTop, ValidMaps, NonEmptyLines, PrintedLines, PrintFile, TextLines;
    var maps := ValidMaps(PrintedLines(vmas));
    var p := TopPositions(maps)[i];
    ValidMapIsProper(PrintedLines(vmas), p);
    TopShowsMapping(maps[p]);
    assert ReadsBack(maps[p], vmas[p]);
  }

  lemma TwoReadBack(vma: Vma)
    requires OneLine(vma) && PlainPath(vma)
    ensures ValidMaps(TextLines(PrintFile([vma, vma]))) == [ToMapLine(vma), ToMapLine(vma)]
  {
    hide TextLines, PrintFile, ValidMaps, HistogramOf, BucketSizes, BucketCounts, NonEmptyLines, OneLine, PlainPath;
    hide PairwiseApart, TotalSize, ToMapLine;
    PrintedFileParses([vma, vma]);
    assert ToMapLines([vma, vma]) == [ToMapLine(vma), ToMapLine(vma)];
  }

  lemma TwiceWraps(a: MapLine)
    requires a == MapLine(0, U64_MAX, "r--p", None)
    ensures BucketSizes(HistogramOf([a, a], KINDS)) != TotalSize([a, a])
  {
    assert Kind(a) == Anon && Size(a) == U64_MAX;
    hide Kind, Size;
    var one, two := [a], [a, a];
    assert two[..1] == one && one[..0] == [];
    assert TotalOf([], Anon) == 0;
    assert TotalOf(one, Anon) == U64_MAX;
    assert TotalOf(two, Anon) == 2 * U64_MAX;
    HistogramConserves(two);
  }

  /** Two mappings that share nearly the whole address space are printed, read back and counted, and their sizes lost. */
  lemma OverlapLosesSizes()
    ensures var vma := Vma(0, U64_MAX, "r--p", 0, 0, 0, 0, 0, None);
            var maps := ValidMaps(TextLines(PrintFile([vma, vma])));
            && maps == [ToMapLine(vma), ToMapLine(vma)]
            && BucketSizes(HistogramOf(maps, KINDS)) != TotalSize(maps)
  {
    var vma := Vma(0, U64_MAX, "r--p", 0, 0, 0, 0, 0, None);
    TwoReadBack(vma);
    TwiceWraps(ToMapLine(vma));
    hide *;
  }
}
