/** One line of /proc/<pid>/maps: parsing, and the kernel's printing it undoes. */
module ProcMapLine {
  import opened Common
  import opened ProcText

  datatype MapLine = MapLine(start: nat, end: nat, perms: string, path: Option<string>)

  predicate PermsFit(perms: string) {
    && |perms| == 4
    && (perms[0] == 'r' || perms[0] == '-')
    && (perms[1] == 'w' || perms[1] == '-')
    && (perms[2] == 'x' || perms[2] == '-')
    && (perms[3] == 'p' || perms[3] == 's')
  }

  /** The address segment "<start>-<end>". */
  function ParseRange(segment: string): Option<(nat, nat)> {
    match SplitOnce(segment, '-')
    case None => None
    case Some((startText, endText)) =>
      var start := ParseUnsigned(Trim(startText), 16, U64_MAX);
      var end := ParseUnsigned(Trim(endText), 16, U64_MAX);
      if start.None? || end.None? || end.value <= start.value then None
      else Some((start.value, end.value))
  }

  predicate DeviceFits(device: string) {
    match SplitOnce(device, ':')
    case None => false
    case Some((major, minor)) =>
      ParseUnsigned(major, 16, U64_MAX).Some? && ParseUnsigned(minor, 16, U64_MAX).Some?
  }

  /** The fields between the address segment and the path. */
  predicate FieldsFit(tokens: seq<string>) {
    && |tokens| >= 4
    && PermsFit(tokens[0])
    && ParseUnsigned(tokens[1], 16, U64_MAX).Some?
    && DeviceFits(tokens[2])
    && ParseUnsigned(tokens[3], 10, U64_MAX).Some?
  }

  /** What follows the address segment: the permissions and the path; the inner None is a line without a path. */
  function ParseRest(rest: string): Option<(string, Option<string>)> {
    var tokens := Tokens(rest);
    if !FieldsFit(tokens) then None
    else if |tokens| <= 4 then Some((tokens[0], None))
    else
      match TokenStart(rest, 4)
      case None => None
      case Some(k) => Some((tokens[0], Some(rest[k..])))
  }

  /** parse_map_line; which of its error texts a bad line gets is not modelled. */
  function ParseMapLine(line: string): Option<MapLine> {
    match SplitOnce(line, ' ')
    case None => None
    case Some((segment, tail)) =>
      match ParseRange(Trim(segment))
      case None => None
      case Some((start, end)) =>
        match ParseRest(TrimStart(tail))
        case None => None
        case Some((perms, path)) => Some(MapLine(start, end, perms, path))
  }

  /** Locating the path never fails: its error branch is dead. */
  lemma PathIsAlwaysLocated(rest: string)
    ensures |Tokens(rest)| > 4 ==> TokenStart(rest, 4).Some?
    ensures ParseRest(rest).Some? <==> FieldsFit(Tokens(rest))
  {
    TokenStartAgrees(rest, 4);
  }

  /** Ranges of parsed lines are never empty and fit into 64 bits. */
  lemma ParsedRangesAreProper(line: string)
    requires ParseMapLine(line).Some?
    ensures ParseMapLine(line).value.start < ParseMapLine(line).value.end <= U64_MAX
    ensures PermsFit(ParseMapLine(line).value.perms)
    ensures match ParseMapLine(line).value.path case Some(path) => path != [] && !IsWhitespace(path[0]) case None => true
  {
    var (segment, tail) := SplitOnce(line, ' ').value;
    var rest := TrimStart(tail);
    if |Tokens(rest)| > 4 {
      TokenStartAgrees(rest, 4);
    }
  }

  // What the kernel prints

  /** A mapping as show_map_vma prints it; `gap` is the padding in front of the path. */
  datatype Vma = Vma(
    start: nat, end: nat, perms: string, offset: nat, major: nat, minor: nat, inode: nat, gap: nat, path: Option<string>)

  ghost predicate ProperVma(vma: Vma) {
    && vma.start < vma.end <= U64_MAX
    && PermsFit(vma.perms)
    && vma.offset <= U64_MAX && vma.major <= U64_MAX && vma.minor <= U64_MAX && vma.inode <= U64_MAX
  }

  function Spaces(n: nat): string {
    if n == 0 then [] else [' '] + Spaces(n - 1)
  }

  function PrintRange(vma: Vma): string {
    PrintHex(vma.start, 8) + ['-'] + PrintHex(vma.end, 8)
  }

  function PrintDevice(vma: Vma): string {
    PrintHex(vma.major, 2) + [':'] + PrintHex(vma.minor, 2)
  }

  /** Permissions, offset, device and inode, and the white space up to the path. */
  function PrintFields(vma: Vma): string {
    vma.perms + ([' '] + (PrintHex(vma.offset, 8) + ([' '] + (PrintDevice(vma) + ([' '] + (PrintDecimal(vma.inode) + Spaces(vma.gap + 1)))))))
  }

  function PrintPath(vma: Vma): string {
    match vma.path case Some(path) => path case None => []
  }

  function PrintVma(vma: Vma): string {
    PrintRange(vma) + [' '] + (PrintFields(vma) + PrintPath(vma))
  }

  lemma {:induction false} SpacesAreWhite(n: nat)
    ensures |Spaces(n)| == n && forall i | 0 <= i < n :: Spaces(n)[i] == ' '
  {
    if 0 < n {
      SpacesAreWhite(n - 1);
    }
  }

  lemma PermsArePlain(perms: string)
    requires PermsFit(perms)
    ensures IsToken(perms) && |perms| == 4
  {}

  lemma PrintedRangeParses(vma: Vma)
    requires ProperVma(vma)
    ensures ' ' !in PrintRange(vma) && Trim(PrintRange(vma)) == PrintRange(vma)
    ensures ParseRange(PrintRange(vma)) == Some((vma.start, vma.end))
  {
    HexRoundTrip(vma.start, 8, U64_MAX);
    HexRoundTrip(vma.end, 8, U64_MAX);
    var start, end := PrintHex(vma.start, 8), PrintHex(vma.end, 8);
    hide DigitsValue, Print, Zeros;
    NumberIsPlain(start);
    NumberIsPlain(end);
    hide PrintHex, ParseUnsigned, IsNumber, DigitValue;
    SplitOnceIs(start, '-', end);
    var range := PrintRange(vma);
    assert range[0] == start[0] && range[|range| - 1] == end[|end| - 1];
    TrimToken(range);
  }

  lemma JoinedToken(a: string, c: char, b: string)
    requires IsToken(a) && IsToken(b) && !IsWhitespace(c)
    ensures IsToken(a + [c] + b)
  {
    hide IsWhitespace;
  }

  lemma PrintedDeviceParses(vma: Vma)
    requires ProperVma(vma)
    ensures IsToken(PrintDevice(vma)) && DeviceFits(PrintDevice(vma))
  {
    var major, minor := PrintHex(vma.major, 2), PrintHex(vma.minor, 2);
    hide DigitsValue, Print, Zeros, IsToken, Trim, SplitOnce, PrintHex, ParseUnsigned, IsNumber, DigitValue;
    HexRoundTrip(vma.major, 2, U64_MAX);
    HexRoundTrip(vma.minor, 2, U64_MAX);
    NumberIsPlain(major);
    NumberIsPlain(minor);
    SplitOnceIs(major, ':', minor);
    JoinedToken(major, ':', minor);
  }

  lemma SpacedToken(token: string, rest: string)
    requires IsToken(token)
    ensures Tokens(token + ([' '] + rest)) == [token] + Tokens(rest)
  {
    TokensOfToken(token, [' '] + rest);
    assert ([' '] + rest)[1..] == rest;
  }

  lemma FourTokens(a: string, b: string, c: string, d: string, gap: nat)
    requires IsToken(a) && IsToken(b) && IsToken(c) && IsToken(d)
    ensures Tokens(a + ([' '] + (b + ([' '] + (c + ([' '] + (d + Spaces(gap + 1)))))))) == [a, b, c, d]
  {
    var spaces := Spaces(gap + 1);
    SpacesAreWhite(gap + 1);
    TokensOfToken(d, spaces);
    TokensOfSpaces(spaces);
    hide Tokens, Spaces, IsToken;
    SpacedToken(c, d + spaces);
    SpacedToken(b, c + ([' '] + (d + spaces)));
    SpacedToken(a, b + ([' '] + (c + ([' '] + (d + spaces)))));
    assert [c] + Tokens(d + spaces) == [c, d];
    assert [b] + [c, d] == [b, c, d];
    assert [a] + [b, c, d] == [a, b, c, d];
  }

  lemma PrintedFieldsFit(vma: Vma)
    requires ProperVma(vma)
    ensures FieldsFit([vma.perms, PrintHex(vma.offset, 8), PrintDevice(vma), PrintDecimal(vma.inode)])
  {
    hide PrintHex, PrintDecimal, PrintDevice, ParseUnsigned, IsNumber, DeviceFits, PermsFit;
    HexRoundTrip(vma.offset, 8, U64_MAX);
    DecimalRoundTrip(vma.inode, U64_MAX);
    PrintedDeviceParses(vma);
  }

  lemma PrintedFieldsTokens(vma: Vma)
    requires ProperVma(vma)
    ensures Tokens(PrintFields(vma)) == [vma.perms, PrintHex(vma.offset, 8), PrintDevice(vma), PrintDecimal(vma.inode)]
  {
    hide PrintHex, PrintDecimal, PrintDevice, ParseUnsigned, IsNumber, DeviceFits, PermsFit, Tokens, IsToken, Spaces;
    PermsArePlain(vma.perms);
    HexRoundTrip(vma.offset, 8, U64_MAX);
    DecimalRoundTrip(vma.inode, U64_MAX);
    NumberIsPlain(PrintHex(vma.offset, 8));
    NumberIsPlain(PrintDecimal(vma.inode));
    PrintedDeviceParses(vma);
    FourTokens(vma.perms, PrintHex(vma.offset, 8), PrintDevice(vma), PrintDecimal(vma.inode), vma.gap);
  }

  lemma PrintedFieldsEnds(vma: Vma)
    requires ProperVma(vma)
    ensures var s := PrintFields(vma); s != [] && s[0] == vma.perms[0] && s[|s| - 1] == ' '
  {
    hide PrintHex, PrintDecimal, PrintDevice, Spaces;
    EndsInSpace(PrintDecimal(vma.inode), vma.gap);
  }

  lemma EndsInSpace(s: string, gap: nat)
    ensures var t := s + Spaces(gap + 1); |t| > |s| && t[|t| - 1] == ' '
  {
    SpacesAreWhite(gap + 1);
  }

  /** Parsing undoes printing, range and permissions always, and the path byte for byte exactly when it is none or
      does not start with white space. */
  lemma PrintedVmaParses(vma: Vma)
    requires ProperVma(vma)
    ensures var parsed := ParseMapLine(PrintVma(vma));
            && parsed.Some?
            && parsed.value.start == vma.start && parsed.value.end == vma.end && parsed.value.perms == vma.perms
            && (parsed.value.path == vma.path <==>
                  (vma.path.Some? ==> vma.path.value != [] && !IsWhitespace(vma.path.value[0])))
  {
    PermsArePlain(vma.perms);
    hide PrintFields, PrintRange, ParseRange, FieldsFit, Tokens, TokenStart, DigitValue, ParseRest, PermsFit, PrintHex, PrintDevice, PrintDecimal;
    var fields, path := PrintFields(vma), PrintPath(vma);
    PrintedRangeParses(vma);
    PrintedFieldsFit(vma);
    PrintedFieldsTokens(vma);
    PrintedFieldsEnds(vma);
    SplitOnceIs(PrintRange(vma), ' ', fields + path);
    assert TrimStart(fields + path) == fields + path;
    PrintedRestParses(fields, path);
    hide TrimStart, Trim, SplitOnce;
  }

  /** Fields and a path read back as the permissions and the path without its leading white space. */
  lemma PrintedRestParses(fields: string, path: string)
    requires fields != [] && fields[|fields| - 1] == ' ' && |Tokens(fields)| == 4 && FieldsFit(Tokens(fields))
    ensures var parsed := ParseRest(fields + path);
            && parsed.Some? && parsed.value.0 == Tokens(fields)[0]
            && (path != [] && !IsWhitespace(path[0]) ==> parsed.value.1 == Some(path))
            && (path == [] ==> parsed.value.1 == None)
            && (path == [] || IsWhitespace(path[0]) ==> parsed.value.1 != Some(path))
  {
    var rest := fields + path;
    TokensOfAppend(fields, path);
    FieldsFitFront(Tokens(fields), Tokens(path));
    PathIsAlwaysLocated(rest);
    TokenStartAgrees(rest, 4);
    if path == [] {
      assert rest == fields;
      assert Tokens(path) == [];
    } else if !IsWhitespace(path[0]) {
      TokensStartingHere(path);
      assert rest[..|fields|] == fields && rest[|fields|..] == path;
      TokenStartIs(rest, |fields|, 4);
    }
  }

  lemma FieldsFitFront(front: seq<string>, more: seq<string>)
    requires |front| == 4
    ensures FieldsFit(front + more) == FieldsFit(front)
  {}
}
