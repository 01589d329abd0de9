/** The projection of /proc/<pid>/maps: a histogram over five kinds and the largest mappings. */
module ProcMaps {
  import opened Common
  import opened ProcText
  import opened ProcMapLine
  import opened StableOrder
  import Utf8

  const MEM_SHAPE_TOP_N: nat := 5
  const TOP_MAP_BACKING_MAX_BYTES: nat := 256
  const U64_MODULUS: nat := U64_MAX + 1

  datatype MapKind = Heap | Stack | Anon | File | XLib

  /** The fixed order of the histogram. */
  const KINDS: seq<MapKind> := [Heap, Stack, Anon, File, XLib]

  datatype Bucket = Bucket(kind: MapKind, count: nat, totalSize: nat)

  datatype TopMap = TopMap(start: string, end: string, size: nat, kind: MapKind, backing: Option<string>)

  /** The text of a degradation is not modelled, its place and its numbers are. */
  datatype Degradation =
    | SkippedLines(count: nat)
    | BackingTruncated(index: nat, originalLength: nat, newLength: nat)

  datatype ParsedMaps = ParsedMaps(
    histogram: seq<Bucket>, topN: seq<TopMap>, validLines: nat, skippedLines: nat, degradations: seq<Degradation>)

  predicate StartsWith(s: string, prefix: string) {
    prefix <= s
  }

  function ClassifyMapKind(perms: string, path: Option<string>): MapKind {
    match path
    case None => Anon
    case Some(text) =>
      var name := Trim(text);
      if StartsWith(name, "[") then
        if name == "[heap]" then Heap
        else if name == "[stack]" || StartsWith(name, "[stack:") then Stack
        else Anon
      else if 'x' in perms then XLib
      else File
  }

  /** str::lines */
  function TextLines(content: string): seq<string>
    decreases |content|
  {
    if content == [] then []
    else
      var i := IndexOf(content, '\n');
      if i == |content| then [content]
      else [StripCarriageReturn(content[..i])] + TextLines(content[i + 1..])
  }

  function StripCarriageReturn(line: string): string {
    if line != [] && line[|line| - 1] == '\r' then line[..|line| - 1] else line
  }

  // Specification

  /** The lines that parse, in file order. */
  function ValidMaps(lines: seq<string>): seq<MapLine> {
    if lines == [] then []
    else
      var before, line := ValidMaps(lines[..|lines| - 1]), lines[|lines| - 1];
      if line != [] && ParseMapLine(line).Some? then before + [ParseMapLine(line).value] else before
  }

  function NonEmptyLines(lines: seq<string>): nat {
    if lines == [] then 0
    else NonEmptyLines(lines[..|lines| - 1]) + if lines[|lines| - 1] != [] then 1 else 0
  }

  function Size(map_: MapLine): nat {
    if map_.start <= map_.end then map_.end - map_.start else 0
  }

  function Kind(map_: MapLine): MapKind {
    ClassifyMapKind(map_.perms, map_.path)
  }

  function CountOf(maps: seq<MapLine>, kind: MapKind): nat {
    if maps == [] then 0
    else CountOf(maps[..|maps| - 1], kind) + if Kind(maps[|maps| - 1]) == kind then 1 else 0
  }

  /** The exact size of a kind. */
  function TotalOf(maps: seq<MapLine>, kind: MapKind): nat {
    if maps == [] then 0
    else TotalOf(maps[..|maps| - 1], kind) + if Kind(maps[|maps| - 1]) == kind then Size(maps[|maps| - 1]) else 0
  }

  function TotalSize(maps: seq<MapLine>): nat {
    if maps == [] then 0 else TotalSize(maps[..|maps| - 1]) + Size(maps[|maps| - 1])
  }

  /** The bucket of a kind as u64 accumulation leaves it. */
  function BucketOf(maps: seq<MapLine>, kind: MapKind): Bucket {
    Bucket(kind, CountOf(maps, kind), TotalOf(maps, kind) % U64_MODULUS)
  }

  function HistogramOf(maps: seq<MapLine>, kinds: seq<MapKind>): seq<Bucket> {
    if kinds == [] then []
    else (if CountOf(maps, kinds[0]) > 0 then [BucketOf(maps, kinds[0])] else []) + HistogramOf(maps, kinds[1..])
  }

  function ToTop(map_: MapLine): TopMap {
    TopMap(PrintHex(map_.start, 16), PrintHex(map_.end, 16), Size(map_), Kind(map_), map_.path)
  }

  function Sizes(maps: seq<MapLine>): seq<nat> {
    seq(|maps|, i requires 0 <= i < |maps| => Size(maps[i]))
  }

  /** The file positions of the largest mappings, largest first. */
  function TopPositions(maps: seq<MapLine>): (positions: seq<nat>)
    ensures |positions| == if |maps| < MEM_SHAPE_TOP_N then |maps| else MEM_SHAPE_TOP_N
    ensures Positions(Sizes(maps), positions)
  {
    var n := if |maps| < MEM_SHAPE_TOP_N then |maps| else MEM_SHAPE_TOP_N;
    StableDescending(Sizes(maps))[..n]
  }

  predicate NeedsTruncation(top: TopMap) {
    top.backing.Some? && ByteLength(top.backing.value) > TOP_MAP_BACKING_MAX_BYTES
  }

  function Truncate(top: TopMap): TopMap {
    if NeedsTruncation(top) then top.(backing := Some(Utf8.LongestPrefix(top.backing.value, TOP_MAP_BACKING_MAX_BYTES))) else top
  }

  function TruncationNotes(tops: seq<TopMap>): seq<Degradation> {
    if tops == [] then []
    else
      var index := |tops| - 1;
      TruncationNotes(tops[..index]) +
        if NeedsTruncation(tops[index]) then
          [BackingTruncated(index, ByteLength(tops[index].backing.value), ByteLength(Truncate(tops[index]).backing.value))]
        else []
  }

  // The program

  /** One line counted into its bucket, with the wrapping addition of a release build. */
  function AddToBuckets(buckets: map<MapKind, (nat, nat)>, kind: MapKind, size: nat): map<MapKind, (nat, nat)> {
    var entry := if kind in buckets then buckets[kind] else (0, 0);
    buckets[kind := (entry.0 + 1, (entry.1 + size) % U64_MODULUS)]
  }

  ghost predicate BucketsMatch(buckets: map<MapKind, (nat, nat)>, maps: seq<MapLine>) {
    forall kind: MapKind ::
      && (kind in buckets <==> CountOf(maps, kind) > 0)
      && (kind in buckets ==> buckets[kind] == (CountOf(maps, kind), TotalOf(maps, kind) % U64_MODULUS))
  }

  lemma {:induction false} NoCountNoTotal(maps: seq<MapLine>, kind: MapKind)
    requires CountOf(maps, kind) == 0
    ensures TotalOf(maps, kind) == 0
  {
    if maps != [] {
      NoCountNoTotal(maps[..|maps| - 1], kind);
    }
  }

  lemma WrapOnce(a: nat, b: nat)
    ensures (a % U64_MODULUS + b) % U64_MODULUS == (a + b) % U64_MODULUS
  {}

  lemma BucketsGrow(buckets: map<MapKind, (nat, nat)>, maps: seq<MapLine>, map_: MapLine)
    requires BucketsMatch(buckets, maps)
    ensures BucketsMatch(AddToBuckets(buckets, Kind(map_), Size(map_)), maps + [map_])
  {
    hide Kind, Size;
    var grown := maps + [map_];
    assert grown[..|maps|] == maps && grown[|maps|] == map_;
    var updated := AddToBuckets(buckets, Kind(map_), Size(map_));
    forall kind: MapKind
      ensures kind in updated <==> CountOf(grown, kind) > 0
      ensures kind in updated ==> updated[kind] == (CountOf(grown, kind), TotalOf(grown, kind) % U64_MODULUS)
    {
      if kind == Kind(map_) {
        if kind !in buckets {
          NoCountNoTotal(maps, kind);
        }
        WrapOnce(TotalOf(maps, kind), Size(map_));
      }
    }
  }

  // What an entry shows

  /** The entry's texts and numbers are those of the mapping: its bounds in sixteen or more hexadecimal digits, and the
      distance between them. */
  predicate ShowsRange(top: TopMap, map_: MapLine) {
    && ParseUnsigned(top.start, 16, U64_MAX) == Some(map_.start)
    && ParseUnsigned(top.end, 16, U64_MAX) == Some(map_.end)
    && |top.start| >= 16 && |top.end| >= 16
    && map_.start + top.size == map_.end
  }

  /** The kind follows from the path, its brackets first, and from the permissions. */
  predicate KindIsRight(kind: MapKind, perms: string, path: Option<string>) {
    if path.None? then kind == Anon
    else
      var name := Trim(path.value);
      var bracketed := name != [] && name[0] == '[';
      && (kind == Heap <==> name == "[heap]")
      && (kind == Stack <==> name == "[stack]" || "[stack:" <= name)
      && (kind == Anon ==> bracketed)
      && (kind == XLib <==> !bracketed && 'x' in perms)
      && (kind == File <==> !bracketed && 'x' !in perms)
  }

  /** A backing is the mapping's path, or the longest prefix of it that fits into 256 bytes. */
  ghost predicate BackingFits(backing: Option<string>, path: Option<string>) {
    match path
    case None => backing == None
    case Some(text) =>
      && backing.Some? && backing.value <= text
      && ByteLength(backing.value) <= 256
      && (backing.value == text || forall k | |backing.value| < k <= |text| :: ByteLength(text[..k]) > 256)
  }

  ghost predicate ShowsMapping(top: TopMap, map_: MapLine) {
    ShowsRange(top, map_) && KindIsRight(top.kind, map_.perms, map_.path) && BackingFits(top.backing, map_.path)
  }

  lemma ClassifiedKindFits(perms: string, path: Option<string>)
    ensures KindIsRight(ClassifyMapKind(perms, path), perms, path)
  {
    if path.Some? {
      var name := Trim(path.value);
      hide Trim;
      assert "[" <= name <==> name != [] && name[0] == '[';
      assert "[stack:" <= name ==> name[0] == '[' && name[1] == 's';
    }
  }

  lemma TopShowsRange(map_: MapLine)
    requires map_.start < map_.end <= U64_MAX
    ensures ShowsRange(ToTop(map_), map_)
  {
    HexRoundTrip(map_.start, 16, U64_MAX);
    HexRoundTrip(map_.end, 16, U64_MAX);
    PrintHexLength(map_.start, 16);
    PrintHexLength(map_.end, 16);
    hide PrintHex, ParseUnsigned, ClassifyMapKind, IsNumber;
  }

  lemma PrintHexLength(n: nat, width: nat)
    ensures |PrintHex(n, width)| >= width
  {
    ZerosLength(width, |Print(n, 16)|);
  }

  lemma {:induction false} ZerosLength(width: nat, used: nat)
    ensures |Zeros(width, used)| == if width <= used then 0 else width - used
  {
    if used < width {
      ZerosLength(width - 1, used);
    }
  }

  /** What is shown of a mapping is the mapping. */
  lemma TopShowsMapping(map_: MapLine)
    requires map_.start < map_.end <= U64_MAX
    ensures ShowsMapping(Truncate(ToTop(map_)), map_)
  {
    TopShowsRange(map_);
    ClassifiedKindFits(map_.perms, map_.path);
    if map_.path.Some? {
      Utf8.LongestPrefixIsLongest(map_.path.value, TOP_MAP_BACKING_MAX_BYTES);
    }
    hide PrintHex, ParseUnsigned, ClassifyMapKind, KindIsRight, ByteLength, Utf8.LongestPrefix;
  }

  lemma {:induction false} ValidMapIsProper(lines: seq<string>, i: nat)
    requires i < |ValidMaps(lines)|
    ensures ValidMaps(lines)[i].start < ValidMaps(lines)[i].end <= U64_MAX
  {
    if lines != [] {
      var n := |lines| - 1;
      if i < |ValidMaps(lines[..n])| {
        ValidMapIsProper(lines[..n], i);
      } else {
        ParsedRangesAreProper(lines[n]);
      }
    }
  }

  method ParseMaps(content: string) returns (parsed: ParsedMaps)
    ensures var lines := TextLines(content); var maps := ValidMaps(lines);
            && parsed.validLines == |maps|
            && parsed.skippedLines + |maps| == NonEmptyLines(lines)
            && parsed.histogram == HistogramOf(maps, KINDS)
            && |parsed.topN| == |TopPositions(maps)|
            && (forall i | 0 <= i < |parsed.topN| :: parsed.topN[i] == Truncate(ToTop(maps[TopPositions(maps)[i]])))
            && (forall i | 0 <= i < |parsed.topN| :: ShowsMapping(parsed.topN[i], maps[TopPositions(maps)[i]]))
            && parsed.degradations ==
                 (if parsed.skippedLines > 0 then [SkippedLines(parsed.skippedLines)] else []) + TruncationNotes(TopsOf(maps))
  {
    hide ParseMapLine, PrintHex, ClassifyMapKind, TextLines, BucketsMatch, AddToBuckets, StableDescending;
    var lines := TextLines(content);
    var buckets: map<MapKind, (nat, nat)> := map[];
    var maps: seq<MapLine> := [];
    var valid, skipped := 0, 0;
    BucketsStart();
    for n := 0 to |lines|
      invariant maps == ValidMaps(lines[..n])
      invariant valid == |maps| && valid + skipped == NonEmptyLines(lines[..n])
      invariant BucketsMatch(buckets, maps)
    {
      var line := lines[n];
      assert lines[..n + 1][..n] == lines[..n];
      if line == [] {
        continue;
      }
      var parsedLine := ParseMapLine(line);
      if parsedLine.None? {
        skipped := skipped + 1;
        continue;
      }
      valid := valid + 1;
      BucketsGrow(buckets, maps, parsedLine.value);
      buckets := AddToBuckets(buckets, Kind(parsedLine.value), Size(parsedLine.value));
      maps := maps + [parsedLine.value];
    }
    assert lines[..|lines|] == lines;

    var histogram := BuildHistogram(buckets, maps);
    var tops, notes := BuildTop(maps);
    TopsShowMappings(lines, tops);
    var degradations := if skipped > 0 then [SkippedLines(skipped)] else [];
    parsed := ParsedMaps(histogram, tops, valid, skipped, degradations + notes);
  }

  lemma TopsShowMappings(lines: seq<string>, tops: seq<TopMap>)
    requires |tops| == |TopPositions(ValidMaps(lines))|
    requires forall i | 0 <= i < |tops| :: tops[i] == Truncate(TopsOf(ValidMaps(lines))[i])
    ensures forall i | 0 <= i < |tops| :: ShowsMapping(tops[i], ValidMaps(lines)[TopPositions(ValidMaps(lines))[i]])
  {
    hide ToTop, Truncate, ShowsMapping, ValidMaps;
    var maps := ValidMaps(lines);
    forall i | 0 <= i < |tops| ensures ShowsMapping(tops[i], maps[TopPositions(maps)[i]]) {
      ValidMapIsProper(lines, TopPositions(maps)[i]);
      TopShowsMapping(maps[TopPositions(maps)[i]]);
    }
  }

  lemma BucketsStart()
    ensures BucketsMatch(map[], [])
  {}

  /** The buckets in the order of the kinds, those without a mapping left out. */
  method BuildHistogram(buckets: map<MapKind, (nat, nat)>, ghost maps: seq<MapLine>) returns (histogram: seq<Bucket>)
    requires BucketsMatch(buckets, maps)
    ensures histogram == HistogramOf(maps, KINDS)
  {
    hide CountOf, TotalOf;
    histogram := [];
    for n := 0 to |KINDS|
      invariant histogram + HistogramOf(maps, KINDS[n..]) == HistogramOf(maps, KINDS)
    {
      var kind := KINDS[n];
      assert KINDS[n..][1..] == KINDS[n + 1..];
      if kind in buckets {
        histogram := histogram + [Bucket(kind, buckets[kind].0, buckets[kind].1)];
      }
    }
  }

  function TopsOf(maps: seq<MapLine>): (tops: seq<TopMap>)
    ensures |tops| == |TopPositions(maps)|
  {
    var positions := TopPositions(maps);
    seq(|positions|, i requires 0 <= i < |positions| => ToTop(maps[positions[i]]))
  }

  /** Sorting, cutting to the first few, and shortening their backings in place. */
  method BuildTop(maps: seq<MapLine>) returns (tops: seq<TopMap>, notes: seq<Degradation>)
    ensures |tops| == |TopsOf(maps)|
    ensures forall i | 0 <= i < |tops| :: tops[i] == Truncate(TopsOf(maps)[i])
    ensures notes == TruncationNotes(TopsOf(maps))
  {
    hide TopsOf, Truncate, NeedsTruncation;
    var sorted := TopsOf(maps);
    tops, notes := sorted, [];
    for index := 0 to |tops|
      invariant |tops| == |sorted|
      invariant forall i | 0 <= i < index :: tops[i] == Truncate(sorted[i])
      invariant forall i | index <= i < |sorted| :: tops[i] == sorted[i]
      invariant notes == TruncationNotes(sorted[..index])
    {
      assert sorted[..index + 1][..index] == sorted[..index];
      var top, note := ShortenBacking(tops[index], index);
      notes := notes + note;
      tops := tops[index := top];
    }
    assert sorted[..|sorted|] == sorted;
  }

  method ShortenBacking(top: TopMap, index: nat) returns (shortened: TopMap, note: seq<Degradation>)
    ensures shortened == Truncate(top)
    ensures note ==
              if NeedsTruncation(top) then
                [BackingTruncated(index, ByteLength(top.backing.value), ByteLength(Truncate(top).backing.value))]
              else []
  {
    hide Utf8.LongestPrefix, ByteLength;
    if top.backing.None? {
      return top, [];
    }
    var backing := top.backing.value;
    var originalLength := ByteLength(backing);
    if originalLength <= TOP_MAP_BACKING_MAX_BYTES {
      return top, [];
    }
    var kept := Utf8.LongestPrefix(backing, TOP_MAP_BACKING_MAX_BYTES);
    shortened := top.(backing := Some(kept));
    note := [BackingTruncated(index, originalLength, ByteLength(kept))];
  }

  // Conservation

  lemma {:induction false} CountsAddUp(maps: seq<MapLine>)
    ensures CountOf(maps, Heap) + CountOf(maps, Stack) + CountOf(maps, Anon) + CountOf(maps, File) + CountOf(maps, XLib) == |maps|
    ensures TotalOf(maps, Heap) + TotalOf(maps, Stack) + TotalOf(maps, Anon) + TotalOf(maps, File) + TotalOf(maps, XLib) == TotalSize(maps)
  {
    hide Size, Kind;
    if maps != [] {
      CountsAddUp(maps[..|maps| - 1]);
    }
  }

  function BucketCounts(histogram: seq<Bucket>): nat {
    if histogram == [] then 0 else histogram[0].count + BucketCounts(histogram[1..])
  }

  function BucketSizes(histogram: seq<Bucket>): nat {
    if histogram == [] then 0 else histogram[0].totalSize + BucketSizes(histogram[1..])
  }

  lemma HistogramStep(maps: seq<MapLine>, kinds: seq<MapKind>)
    requires kinds != []
    ensures BucketCounts(HistogramOf(maps, kinds)) == CountOf(maps, kinds[0]) + BucketCounts(HistogramOf(maps, kinds[1..]))
    ensures BucketSizes(HistogramOf(maps, kinds)) ==
              TotalOf(maps, kinds[0]) % U64_MODULUS + BucketSizes(HistogramOf(maps, kinds[1..]))
  {
    hide CountOf, TotalOf;
    var rest := HistogramOf(maps, kinds[1..]);
    if CountOf(maps, kinds[0]) > 0 {
      assert HistogramOf(maps, kinds)[1..] == rest;
    } else {
      NoCountNoTotal(maps, kinds[0]);
      assert HistogramOf(maps, kinds) == rest;
    }
  }

  lemma HistogramSums(maps: seq<MapLine>)
    ensures BucketCounts(HistogramOf(maps, KINDS)) ==
              CountOf(maps, Heap) + CountOf(maps, Stack) + CountOf(maps, Anon) + CountOf(maps, File) + CountOf(maps, XLib)
    ensures BucketSizes(HistogramOf(maps, KINDS)) ==
              TotalOf(maps, Heap) % U64_MODULUS + TotalOf(maps, Stack) % U64_MODULUS + TotalOf(maps, Anon) % U64_MODULUS
              + TotalOf(maps, File) % U64_MODULUS + TotalOf(maps, XLib) % U64_MODULUS
  {
    hide CountOf, TotalOf;
    HistogramStep(maps, KINDS);
    assert KINDS[1..] == [Stack, Anon, File, XLib];
    HistogramStep(maps, [Stack, Anon, File, XLib]);
    assert [Stack, Anon, File, XLib][1..] == [Anon, File, XLib];
    HistogramStep(maps, [Anon, File, XLib]);
    assert [Anon, File, XLib][1..] == [File, XLib];
    HistogramStep(maps, [File, XLib]);
    assert [File, XLib][1..] == [XLib];
    HistogramStep(maps, [XLib]);
  }

  /** Bucket counts add up to the valid lines always; bucket sizes add up to the ranges exactly when no kind's exact
      size needs more than 64 bits. */
  lemma HistogramConserves(maps: seq<MapLine>)
    ensures BucketCounts(HistogramOf(maps, KINDS)) == |maps|
    ensures BucketSizes(HistogramOf(maps, KINDS)) == TotalSize(maps) <==> forall kind: MapKind :: TotalOf(maps, kind) <= U64_MAX
  {
    hide CountOf, TotalOf, HistogramOf, BucketSizes;
    CountsAddUp(maps);
    HistogramSums(maps);
    WrapsIffTooLarge(TotalOf(maps, Heap));
    WrapsIffTooLarge(TotalOf(maps, Stack));
    WrapsIffTooLarge(TotalOf(maps, Anon));
    WrapsIffTooLarge(TotalOf(maps, File));
    WrapsIffTooLarge(TotalOf(maps, XLib));
    if TotalOf(maps, Heap) <= U64_MAX && TotalOf(maps, Stack) <= U64_MAX && TotalOf(maps, Anon) <= U64_MAX
       && TotalOf(maps, File) <= U64_MAX && TotalOf(maps, XLib) <= U64_MAX {
      forall kind: MapKind ensures TotalOf(maps, kind) <= U64_MAX {
        match kind {
          case Heap =>
          case Stack =>
          case Anon =>
          case File =>
          case XLib =>
        }
      }
    }
  }

  lemma WrapsIffTooLarge(n: nat)
    ensures n % U64_MODULUS <= n && (n % U64_MODULUS == n <==> n <= U64_MAX)
  {}

  // Disjoint ranges

  predicate Apart(a: MapLine, b: MapLine) {
    a.end <= b.start || b.end <= a.start
  }

  ghost predicate PairwiseApart(maps: seq<MapLine>) {
    forall i, j | 0 <= i < j < |maps| :: Apart(maps[i], maps[j])
  }

  ghost predicate FitsAddressSpace(maps: seq<MapLine>) {
    forall i | 0 <= i < |maps| :: maps[i].start <= maps[i].end <= U64_MAX
  }

  ghost predicate Inside(x: int, start: int, end: int) {
    start <= x < end
  }

  ghost function Span(start: int, end: int): set<int> {
    set x | start <= x < end && Inside(x, start, end)
  }

  ghost function Covered(maps: seq<MapLine>): set<int> {
    if maps == [] then {} else Covered(maps[..|maps| - 1]) + Span(maps[|maps| - 1].start, maps[|maps| - 1].end)
  }

  lemma {:induction false} SpanSize(start: int, end: int)
    requires start <= end
    ensures |Span(start, end)| == end - start
    decreases end - start
  {
    if start < end {
      SpanSize(start, end - 1);
      forall x ensures x in Span(start, end) <==> x in Span(start, end - 1) + {end - 1} {
        assert x in Span(start, end) <==> Inside(x, start, end);
        assert x in Span(start, end - 1) <==> Inside(x, start, end - 1);
      }
      assert Span(start, end) == Span(start, end - 1) + {end - 1};
    }
  }

  lemma {:induction false} CoveredBy(maps: seq<MapLine>, x: int)
    requires x in Covered(maps)
    ensures exists i :: 0 <= i < |maps| && Inside(x, maps[i].start, maps[i].end)
  {
    var last := |maps| - 1;
    if !Inside(x, maps[last].start, maps[last].end) {
      CoveredBy(maps[..last], x);
      var i :| 0 <= i < last && Inside(x, maps[..last][i].start, maps[..last][i].end);
      assert maps[i] == maps[..last][i];
    }
  }

  lemma {:induction false} CoveredSize(maps: seq<MapLine>)
    requires PairwiseApart(maps) && FitsAddressSpace(maps)
    ensures |Covered(maps)| == TotalSize(maps) && Covered(maps) <= Span(0, U64_MAX)
  {
    if maps != [] {
      var last := |maps| - 1;
      var front := maps[..last];
      CoveredSize(front);
      SpanSize(maps[last].start, maps[last].end);
      forall x | x in Covered(front) ensures x !in Span(maps[last].start, maps[last].end) {
        CoveredBy(front, x);
        var i :| 0 <= i < last && Inside(x, front[i].start, front[i].end);
        assert Apart(maps[i], maps[last]);
      }
      assert Covered(front) !! Span(maps[last].start, maps[last].end);
    }
  }

  lemma {:induction false} KindAtMostAll(maps: seq<MapLine>, kind: MapKind)
    ensures TotalOf(maps, kind) <= TotalSize(maps)
  {
    hide Size, Kind;
    if maps != [] {
      KindAtMostAll(maps[..|maps| - 1], kind);
    }
  }

  /** What was parsed always lies in the address space. */
  lemma {:induction false} ValidMapsFit(lines: seq<string>)
    ensures FitsAddressSpace(ValidMaps(lines))
  {
    hide ParseMapLine;
    if lines != [] {
      ValidMapsFit(lines[..|lines| - 1]);
      var line := lines[|lines| - 1];
      if ParseMapLine(line).Some? {
        ParsedRangesAreProper(line);
      }
    }
  }

  lemma SubsetIsSmaller(a: set<int>, b: set<int>)
    requires a <= b
    ensures |a| <= |b|
  {
    assert b == a + (b - a);
  }

  lemma KindFits(maps: seq<MapLine>, kind: MapKind)
    requires TotalSize(maps) <= U64_MAX
    ensures BucketOf(maps, kind).totalSize == TotalOf(maps, kind) <= U64_MAX
  {
    KindAtMostAll(maps, kind);
    WrapsIffTooLarge(TotalOf(maps, kind));
  }

  /** A real address space cannot overflow the accumulation. */
  lemma DisjointRangesNeverOverflow(maps: seq<MapLine>)
    requires PairwiseApart(maps) && FitsAddressSpace(maps)
    ensures TotalSize(maps) <= U64_MAX
    ensures forall kind: MapKind :: BucketOf(maps, kind).totalSize == TotalOf(maps, kind) <= U64_MAX
    ensures BucketSizes(HistogramOf(maps, KINDS)) == TotalSize(maps)
  {
    CoveredSize(maps);
    hide Span, Covered, BucketOf, CountOf, TotalOf, HistogramOf, TotalSize, BucketSizes, PairwiseApart, FitsAddressSpace;
    SpanSize(0, U64_MAX);
    SubsetIsSmaller(Covered(maps), Span(0, U64_MAX));
    forall kind: MapKind ensures BucketOf(maps, kind).totalSize == TotalOf(maps, kind) <= U64_MAX {
      KindFits(maps, kind);
    }
    HistogramConserves(maps);
  }

  // Top mappings

  /** Nothing left out is larger than anything kept, ties keep file order, and the kept ones are themselves in that order. */
  lemma TopPositionsAreTop(maps: seq<MapLine>)
    ensures var sizes := Sizes(maps); var top := TopPositions(maps);
            && |top| == (if |maps| < 5 then |maps| else 5)
            && Ordered(sizes, top)
            && (forall i, j | 0 <= i < j < |top| :: top[i] != top[j])
            && forall kept, left | kept in top && 0 <= left < |maps| && left !in top :: kept < |maps| && Before(sizes, kept, left)
  {
    var sizes := Sizes(maps);
    var top := TopPositions(maps);
    StableDescendingSorts(sizes);
    hide StableDescending, Before;
    forall kept, left | kept in top && 0 <= left < |maps| && left !in top ensures kept < |maps| && Before(sizes, kept, left) {
      CutIsTop(sizes, |top|, kept, left);
    }
  }

  /** The note has the length in bytes of the backing before and after. */
  predicate TellsLengths(note: Degradation, tops: seq<TopMap>) {
    && note.BackingTruncated? && note.index < |tops|
    && tops[note.index].backing.Some? && Truncate(tops[note.index]).backing.Some?
    && note.originalLength == ByteLength(tops[note.index].backing.value)
    && note.newLength == ByteLength(Truncate(tops[note.index]).backing.value)
    && note.newLength <= 256 < note.originalLength
  }

  lemma TellsLengthsLater(note: Degradation, tops: seq<TopMap>)
    requires tops != [] && TellsLengths(note, tops[..|tops| - 1])
    ensures TellsLengths(note, tops)
  {}

  lemma {:induction false} NotesNameShortened(tops: seq<TopMap>, index: nat)
    ensures (exists note :: note in TruncationNotes(tops) && note.BackingTruncated? && note.index == index) <==>
              index < |tops| && Truncate(tops[index]) != tops[index]
    ensures forall note <- TruncationNotes(tops) :: TellsLengths(note, tops)
  {
    if tops != [] {
      var last := |tops| - 1;
      var front := TruncationNotes(tops[..last]);
      NotesNameShortened(tops[..last], index);
      ShortenedIffNeeded(tops[last]);
      assert NeedsTruncation(tops[last]) ==> ByteLength(tops[last].backing.value) > 256 && Truncate(tops[last]).backing.Some?;
      hide NeedsTruncation, Truncate, ByteLength;
      var notes := TruncationNotes(tops);
      forall note <- front ensures TellsLengths(note, tops) {
        TellsLengthsLater(note, tops);
      }
      assert front <= notes;
      assert forall note <- front :: note in notes;
      if NeedsTruncation(tops[last]) {
        assert notes[|front|].BackingTruncated? && notes[|front|].index == last;
      } else {
        assert notes == front;
      }
    }
  }

  /** A backing is shortened exactly when it is too long, and then to the longest prefix that fits. */
  lemma ShortenedIffNeeded(top: TopMap)
    ensures Truncate(top) != top <==> NeedsTruncation(top)
    ensures NeedsTruncation(top) ==>
              var kept := Truncate(top).backing.value;
              && kept <= top.backing.value && ByteLength(kept) <= TOP_MAP_BACKING_MAX_BYTES
              && Utf8.Encode(kept) == Utf8.Truncated(Utf8.Encode(top.backing.value), TOP_MAP_BACKING_MAX_BYTES)
  {
    if NeedsTruncation(top) {
      Utf8.LongestPrefixIsLongest(top.backing.value, TOP_MAP_BACKING_MAX_BYTES);
      Utf8.TruncationKeepsWholeCharacters(top.backing.value, TOP_MAP_BACKING_MAX_BYTES);
    }
  }
}
