/** The confidence summary of a Level 0 introspection, from the evidence to the assembled result.

  Scores and the overall confidence are exact reals.
*/
module Confidence {
  import opened Common
  import opened LowFields
  import ProcStat
  import ProcText

  datatype Symbolized = Symbolized(name: string, source: SymbolConfidence)

  datatype Frame = Frame(idx: nat, addr: string, symbol: Option<Symbolized>, confidence: Option<SymbolConfidence>)

  datatype Hotspot = NotBlocked | Blocked(frames: seq<Frame>)

  // The overall confidence

  /** frame_symbol_confidence */
  function FrameConfidence(frame: Frame): SymbolConfidence {
    if frame.symbol.Some? && frame.confidence.Some? then frame.confidence.value else NoSymbol
  }

  function ScoreSum(frames: seq<Frame>): (sum: real)
    ensures 0.0 <= sum <= |frames| as real
  {
    if frames == [] then 0.0
    else ScoreSum(frames[..|frames| - 1]) + Score(FrameConfidence(frames[|frames| - 1]))
  }

  function Component(hotspot: Hotspot): (component: real)
    ensures 0.0 <= component <= 1.0
  {
    if hotspot.Blocked? && hotspot.frames != [] then
      QuotientInUnit(ScoreSum(hotspot.frames), |hotspot.frames| as real);
      ScoreSum(hotspot.frames) / |hotspot.frames| as real
    else 1.0
  }

  function Clamp(x: real): real {
    if x < 0.0 then 0.0 else if x > 1.0 then 1.0 else x
  }

  /** calculate_overall_confidence */
  function Overall(hotspot: Hotspot, lowFields: nat): real {
    Clamp(Component(hotspot) / (1.0 + 0.1 * lowFields as real))
  }

  lemma Scaling(x: real, y: real, factor: real)
    requires factor > 0.0
    ensures x < y <==> x * factor < y * factor
  {}

  lemma QuotientInUnit(a: real, b: real)
    requires 0.0 <= a <= b && b > 0.0
    ensures 0.0 <= a / b <= 1.0
  {
    assert (a / b) * b == a;
    Scaling(a / b, 0.0, b);
    Scaling(1.0, a / b, b);
  }

  lemma QuotientFalls(a: real, b: real, c: real)
    requires 0.0 <= a && 0.0 < b <= c
    ensures a / c <= a / b
    ensures a / c == a / b <==> a == 0.0 || b == c
  {
    var q, r := a / b, a / c;
    assert q * b == a == r * c;
    Scaling(q, 0.0, b);
    Scaling(0.0, q, b);
    Scaling(q, r, c);
    Scaling(r, q, c);
    assert q * c - r * c == q * (c - b);
    if q > 0.0 && b < c {
      Scaling(0.0, q, c - b);
    }
  }

  /** The clamp never has anything to do. */
  lemma OverallIsTheQuotient(hotspot: Hotspot, lowFields: nat)
    ensures 0.0 <= Overall(hotspot, lowFields) <= 1.0
    ensures Overall(hotspot, lowFields) == Component(hotspot) / (1.0 + 0.1 * lowFields as real)
  {
    QuotientInUnit(Component(hotspot), 1.0 + 0.1 * lowFields as real);
  }

  lemma OneMore(x: real, n: nat)
    ensures x * (n + 1) as real == x * n as real + x
  {
    assert (n + 1) as real == n as real + 1.0;
  }

  lemma {:induction false} SumOfScores(frames: seq<Frame>, low: real, high: real)
    requires forall i | 0 <= i < |frames| :: low <= Score(FrameConfidence(frames[i])) <= high
    ensures low * |frames| as real <= ScoreSum(frames) <= high * |frames| as real
  {
    hide Score, FrameConfidence;
    if frames == [] {
      assert ScoreSum([]) == 0.0;
    } else {
      var n := |frames| - 1;
      SumOfScores(frames[..n], low, high);
      OneMore(low, n);
      OneMore(high, n);
      assert ScoreSum(frames) == ScoreSum(frames[..n]) + Score(FrameConfidence(frames[n]));
      hide ScoreSum;
    }
  }

  /** Every frame adds its own score. */
  lemma {:induction false} SumAdds(a: seq<Frame>, b: seq<Frame>)
    ensures ScoreSum(a + b) == ScoreSum(a) + ScoreSum(b)
    ensures forall frame: Frame :: ScoreSum([frame]) == Score(FrameConfidence(frame))
  {
    hide Score, FrameConfidence;
    assert forall frame: Frame :: [frame][..0] == [];
    if b == [] {
      assert a + b == a;
    } else {
      SumAdds(a, b[..|b| - 1]);
      assert (a + b)[..|a + b| - 1] == a + b[..|b| - 1];
    }
  }

  lemma ComponentDivides(frames: seq<Frame>)
    requires frames != []
    ensures Component(Blocked(frames)) == ScoreSum(frames) / |frames| as real
  {
    hide ScoreSum;
  }

  /** The component of a blocked process is the mean of its frames' scores, so it lies between them. */
  lemma ComponentIsMean(frames: seq<Frame>, low: real, high: real)
    requires frames != [] && forall i | 0 <= i < |frames| :: low <= Score(FrameConfidence(frames[i])) <= high
    ensures Component(Blocked(frames)) == ScoreSum(frames) / |frames| as real
    ensures low <= Component(Blocked(frames)) <= high
  {
    hide *;
    SumOfScores(frames, low, high);
    QuotientBetween(ScoreSum(frames), |frames| as real, low, high);
    ComponentDivides(frames);
  }

  lemma QuotientBetween(sum: real, n: real, low: real, high: real)
    requires n > 0.0 && low * n <= sum <= high * n
    ensures low <= sum / n <= high && (sum / n) * n == sum
  {
    var q := sum / n;
    assert q * n == sum;
    Scaling(q, low, n);
    Scaling(high, q, n);
  }

  /** Without frames nothing but the number of paths counts. */
  lemma UnblockedStartsAtOne(lowFields: nat)
    ensures Overall(NotBlocked, lowFields) == Overall(Blocked([]), lowFields) == 10.0 / (10 + lowFields) as real
  {
    OverallIsTheQuotient(NotBlocked, lowFields);
    OverallIsTheQuotient(Blocked([]), lowFields);
    var a := 1.0 + 0.1 * lowFields as real;
    assert a * 10.0 == (10 + lowFields) as real;
    assert (1.0 / a) * a == 1.0;
    assert (10.0 / (a * 10.0)) * (a * 10.0) == 10.0;
    Scaling(1.0 / a, 10.0 / (a * 10.0), a);
    Scaling(10.0 / (a * 10.0), 1.0 / a, a);
  }

  /** A frame without a symbol or without a grade counts as worthless, any other by its grade. */
  lemma FrameCounts(frame: Frame)
    ensures FrameConfidence(frame) == NoSymbol <==>
            frame.symbol.None? || frame.confidence.None? || frame.confidence == Some(NoSymbol)
    ensures frame.symbol.Some? && frame.confidence.Some? ==> FrameConfidence(frame) == frame.confidence.value
  {}

  /** More evidence never raises the overall confidence, and leaves it as it is exactly when every path was already on
      the list, or there was no confidence left to lose. */
  lemma EvidenceNeverRaises(hotspot: Hotspot, fields: seq<LowField>, more: seq<Evidence>)
    ensures Overall(hotspot, |MergedAll(fields, more)|) <= Overall(hotspot, |fields|)
    ensures Overall(hotspot, |MergedAll(fields, more)|) == Overall(hotspot, |fields|) <==>
            Component(hotspot) == 0.0 || AllHeard(fields, more)
  {
    MergedAllGrows(fields, more);
    OverallIsTheQuotient(hotspot, |fields|);
    OverallIsTheQuotient(hotspot, |MergedAll(fields, more)|);
    QuotientFalls(Component(hotspot), 1.0 + 0.1 * |fields| as real, 1.0 + 0.1 * |MergedAll(fields, more)| as real);
  }

  // The token estimate

  /** Four bytes to a token, rounded up, with saturation. */
  function Tokens(bytes: nat): (tokens: nat)
    ensures tokens <= U32_MAX
    ensures bytes <= 4 * U32_MAX ==> 4 * tokens - 4 < bytes <= 4 * tokens
    ensures bytes > 4 * U32_MAX ==> tokens == U32_MAX
  {
    Min(Min(bytes + 3, U64_MAX) / 4, U32_MAX)
  }

  // The evidence

  const TOP_N: nat := 5

  const FRAMES_PATH := "hotspot.frames"

  const WCHAN_PATH := "state.wchan"

  const NO_STACK := "D-state kernel stack unavailable"

  const NO_WCHAN := "sleeping or blocked state has no readable wchan"

  const UNKNOWN_STATE := "unknown kernel run state preserved as a forward-compatible fallback"

  const UNSYMBOLIZED := "blocked frame symbolization failed or produced no confidence"

  function FramePath(idx: nat): string {
    FRAMES_PATH + "[" + ProcText.PrintDecimal(idx) + "].symbol"
  }

  lemma FramePathsDiffer(i: nat, j: nat)
    requires FramePath(i) == FramePath(j)
    ensures i == j
  {
    var p, q := ProcText.PrintDecimal(i), ProcText.PrintDecimal(j);
    var head := FRAMES_PATH + "[";
    assert |FramePath(i)| == |head| + |p| + 8 && |FramePath(j)| == |head| + |q| + 8;
    assert p == FramePath(i)[|head|..|head| + |p|] && q == FramePath(j)[|head|..|head| + |q|];
    ProcText.DecimalRoundTrip(i, i + j);
    ProcText.DecimalRoundTrip(j, i + j);
  }

  datatype Answer = Resolved(symbol: Symbolized) | Unresolved(reason: string)

  /** A line of the kernel stack. */
  datatype StackLine = StackLine(addr: string, raw: string)

  /** The symbolizer's answer to its n-th question, which is about an address. */
  type Symbolizer = (nat, nat) -> Answer

  /** What a snapshot has to say about the confidence of its parts. */
  datatype Findings = Findings(
    runState: ProcStat.RunState, stack: seq<StackLine>, symbolize: Symbolizer, wchan: Option<string>,
    procDegradations: seq<Degradation>, mapsDegradations: seq<Degradation>,
    hasVoluntary: bool, hasNonvoluntary: bool, hasCgroup: bool, hasExe: bool, cpuReason: Option<string>)

  function TrimHexPrefix(s: string): string {
    if "0x" <= s then TrimHexPrefix(s[2..]) else s
  }

  /** The address a line names, 0 if it names none. */
  function Address(line: StackLine): nat {
    match ProcText.ParseUnsigned(TrimHexPrefix(line.addr), 16, U64_MAX)
    case Some(address) => address
    case None => 0
  }

  /** An address is read as hexadecimal, with 0x in front or without. */
  lemma AddressReadsHex(address: nat, width: nat, raw: string)
    requires address <= U64_MAX
    ensures Address(StackLine(ProcText.PrintHex(address, width), raw)) == address
    ensures Address(StackLine("0x" + ProcText.PrintHex(address, width), raw)) == address
  {
    var digits := ProcText.PrintHex(address, width);
    ProcText.HexRoundTrip(address, width, U64_MAX);
    hide ProcText.PrintHex, ProcText.ParseUnsigned;
    assert ProcText.DigitValue('x', 16).None?;
    assert |digits| >= 2 ==> ProcText.DigitValue(digits[1], 16).Some?;
    hide ProcText.DigitValue;
    assert TrimHexPrefix(digits) == digits;
    assert ("0x" + digits)[2..] == digits;
  }

  /** Of a kernel symbol what counts is the part before its offset. */
  lemma NormalizeCutsOffset(name: string, offset: string)
    requires ProcText.IsToken(name) && '+' !in name
    ensures Normalize(name) == name
    ensures ProcText.IsToken(offset) ==> Normalize(name + "+" + offset) == name
  {
    ProcText.TrimToken(name);
    ProcText.IndexOfIs(name, '+', |name|);
    var symbol := name + "+" + offset;
    if ProcText.IsToken(offset) {
      assert ProcText.IsToken(symbol) by {
        assert forall i | 0 <= i < |symbol| ::
            symbol[i] == if i < |name| then name[i] else if i == |name| then '+' else offset[i - |name| - 1];
      }
      ProcText.TrimToken(symbol);
      ProcText.IndexOfIs(symbol, '+', |name|);
    }
  }

  function FrameOf(idx: nat, line: StackLine, symbolize: Symbolizer): Frame {
    match symbolize(idx, Address(line))
    case Resolved(symbol) => Frame(idx, line.addr, Some(symbol), Some(symbol.source))
    case Unresolved(_) => Frame(idx, line.addr, Some(Symbolized(line.raw, Kallsyms)), Some(Kallsyms))
  }

  function FramesOf(stack: seq<StackLine>, symbolize: Symbolizer, n: nat): (frames: seq<Frame>)
    requires n <= |stack|
    ensures |frames| == n
    ensures forall i | 0 <= i < n :: frames[i] == FrameOf(i, stack[i], symbolize)
  {
    if n == 0 then [] else FramesOf(stack, symbolize, n - 1) + [FrameOf(n - 1, stack[n - 1], symbolize)]
  }

  function HotspotOf(f: Findings): Hotspot {
    if !f.runState.D? then NotBlocked else Blocked(FramesOf(f.stack, f.symbolize, Min(TOP_N, |f.stack|)))
  }

  function FailedFrames(stack: seq<StackLine>, symbolize: Symbolizer, n: nat): seq<Evidence>
    requires n <= |stack|
  {
    if n == 0 then []
    else
      var answer := symbolize(n - 1, Address(stack[n - 1]));
      FailedFrames(stack, symbolize, n - 1) +
      if answer.Unresolved? then [Evidence(FramePath(n - 1), Kallsyms, answer.reason)] else []
  }

  function HotspotEvidence(f: Findings): seq<Evidence> {
    if !f.runState.D? then []
    else if f.stack == [] then [Evidence(FRAMES_PATH, NoSymbol, NO_STACK)]
    else FailedFrames(f.stack, f.symbolize, Min(TOP_N, |f.stack|))
  }

  function UnsymbolizedFrames(frames: seq<Frame>, n: nat): seq<Evidence>
    requires n <= |frames|
  {
    if n == 0 then []
    else
      UnsymbolizedFrames(frames, n - 1) +
      if FrameConfidence(frames[n - 1]).NoSymbol? then
        [Evidence(FramePath(frames[n - 1].idx), NoSymbol, UNSYMBOLIZED)]
      else []
  }

  function FramesEvidence(hotspot: Hotspot): seq<Evidence> {
    if hotspot.NotBlocked? then [] else UnsymbolizedFrames(hotspot.frames, |hotspot.frames|)
  }

  /** normalize_kernel_symbol: without surrounding white space and without the offset. */
  function Normalize(symbol: string): string {
    var trimmed := ProcText.Trim(symbol);
    trimmed[..ProcText.IndexOf(trimmed, '+')]
  }

  function MismatchEvidence(f: Findings, hotspot: Hotspot): seq<Evidence> {
    if hotspot.NotBlocked? || hotspot.frames == [] || f.wchan.None? || f.stack == [] then []
    else
      var expected, actual := Normalize(f.wchan.value), Normalize(f.stack[0].raw);
      if expected == actual then []
      else
        var reason := "wchan/top frame mismatch: wchan=" + expected + ", stack=" + actual;
        [Evidence(WCHAN_PATH, Kallsyms, reason),
         Evidence(FramePath(hotspot.frames[0].idx), FrameConfidence(hotspot.frames[0]), reason)]
  }

  function When(holds: bool, path: string, reason: string): seq<Evidence> {
    if holds then [Evidence(path, NoSymbol, reason)] else []
  }

  function StateEvidence(f: Findings): seq<Evidence> {
    When(f.runState.Unknown?, "state.run_state", UNKNOWN_STATE) +
    When((f.runState.S? || f.runState.D?) && f.wchan.None?, WCHAN_PATH,
         NO_WCHAN)
  }

  const VOLUNTARY: string := "voluntary_ctxt_switches"
  const NONVOLUNTARY: string := "nonvoluntary_ctxt_switches"

  function MissingSwitches(f: Findings): string {
    (if !f.hasVoluntary then VOLUNTARY else "") +
    (if !f.hasVoluntary && !f.hasNonvoluntary then " and " else "") +
    (if !f.hasNonvoluntary then NONVOLUNTARY else "")
  }

  function AbsenceEvidence(f: Findings): seq<Evidence> {
    When(!f.hasVoluntary || !f.hasNonvoluntary, "resource.ctxt_switches", "status missing " + MissingSwitches(f)) +
    When(!f.hasCgroup, "identity.cgroup", "cgroup path unavailable") +
    When(!f.hasExe, "identity.exe", "exe target unavailable") +
    When(f.cpuReason.Some?, "resource.pct_cpu", if f.cpuReason.Some? then f.cpuReason.value else "")
  }

  /** Everything that speaks against some part of the snapshot. */
  function AllEvidence(f: Findings): seq<Evidence> {
    HotspotEvidence(f) + FramesEvidence(HotspotOf(f)) + MismatchEvidence(f, HotspotOf(f)) +
    AsEvidence(f.procDegradations) + AsEvidence(f.mapsDegradations) + StateEvidence(f) + AbsenceEvidence(f)
  }

  // What there is to say, item by item

  /** A degraded read of procfs or of the maps. */
  predicate IsDegradation(f: Findings, e: Evidence) {
    e.confidence == NoSymbol && Degradation(e.path, e.reason) in f.procDegradations + f.mapsDegradations
  }

  /** A shown frame that the symbolizer could not resolve, or resolved without any confidence. */
  predicate IsFrameTrouble(f: Findings, e: Evidence, i: nat) {
    && f.runState.D? && i < |f.stack| && i < 5
    && e.path == FramePath(i)
    && match f.symbolize(i, Address(f.stack[i]))
       case Unresolved(reason) => e.confidence == Kallsyms && e.reason == reason
       case Resolved(symbol) => symbol.source == NoSymbol && e.confidence == NoSymbol && e.reason == UNSYMBOLIZED
  }

  /** The wait channel does not name the function on top of the stack. */
  predicate IsMismatch(f: Findings, e: Evidence) {
    && f.runState.D? && f.stack != [] && f.wchan.Some?
    && var expected, actual := Normalize(f.wchan.value), Normalize(f.stack[0].raw);
       && expected != actual
       && e.reason == "wchan/top frame mismatch: wchan=" + expected + ", stack=" + actual
       && (|| (e.path == WCHAN_PATH && e.confidence == Kallsyms)
           || (e.path == FramePath(0) && e.confidence == match f.symbolize(0, Address(f.stack[0]))
                                                           case Resolved(symbol) => symbol.source
                                                           case Unresolved(_) => Kallsyms))
  }

  /** Something that should be there is not. */
  predicate IsAbsence(f: Findings, e: Evidence) {
    && e.confidence == NoSymbol
    && (|| (f.runState.D? && f.stack == [] && e.path == FRAMES_PATH && e.reason == NO_STACK)
        || (f.runState.Unknown? && e.path == "state.run_state" && e.reason == UNKNOWN_STATE)
        || ((f.runState.S? || f.runState.D?) && f.wchan.None? && e.path == WCHAN_PATH && e.reason == NO_WCHAN)
        || ((!f.hasVoluntary || !f.hasNonvoluntary) && e.path == "resource.ctxt_switches"
            && e.reason == "status missing " + if f.hasNonvoluntary then VOLUNTARY
                                               else if f.hasVoluntary then NONVOLUNTARY
                                               else VOLUNTARY + " and " + NONVOLUNTARY)
        || (!f.hasCgroup && e.path == "identity.cgroup" && e.reason == "cgroup path unavailable")
        || (!f.hasExe && e.path == "identity.exe" && e.reason == "exe target unavailable")
        || (f.cpuReason.Some? && e.path == "resource.pct_cpu" && e.reason == f.cpuReason.value))
  }

  ghost predicate SpeaksAgainst(f: Findings, e: Evidence) {
    IsDegradation(f, e) || IsMismatch(f, e) || IsAbsence(f, e) || exists i: nat :: IsFrameTrouble(f, e, i)
  }

  lemma {:induction false} InFailedFrames(stack: seq<StackLine>, symbolize: Symbolizer, n: nat, e: Evidence)
    requires n <= |stack|
    ensures e in FailedFrames(stack, symbolize, n) <==>
            exists i: nat :: i < n && IsFailure(stack, symbolize, i, e)
  {
    hide FramePath, Address;
    if n > 0 {
      InFailedFrames(stack, symbolize, n - 1, e);
      var answer := symbolize(n - 1, Address(stack[n - 1]));
      var last := if answer.Unresolved? then [Evidence(FramePath(n - 1), Kallsyms, answer.reason)] else [];
      assert FailedFrames(stack, symbolize, n) == FailedFrames(stack, symbolize, n - 1) + last;
      assert e in last <==> IsFailure(stack, symbolize, n - 1, e);
    }
  }

  predicate IsFailure(stack: seq<StackLine>, symbolize: Symbolizer, i: nat, e: Evidence) {
    && i < |stack|
    && var answer := symbolize(i, Address(stack[i]));
       answer.Unresolved? && e == Evidence(FramePath(i), Kallsyms, answer.reason)
  }

  predicate IsUnsymbolized(frames: seq<Frame>, i: nat, e: Evidence) {
    i < |frames| && FrameConfidence(frames[i]).NoSymbol? && e == Evidence(FramePath(frames[i].idx), NoSymbol, UNSYMBOLIZED)
  }

  lemma {:induction false} InUnsymbolizedFrames(frames: seq<Frame>, n: nat, e: Evidence)
    requires n <= |frames|
    ensures e in UnsymbolizedFrames(frames, n) <==> exists i: nat :: i < n && IsUnsymbolized(frames, i, e)
  {
    hide FramePath;
    if n > 0 {
      InUnsymbolizedFrames(frames, n - 1, e);
      var last :=
        if FrameConfidence(frames[n - 1]).NoSymbol? then [Evidence(FramePath(frames[n - 1].idx), NoSymbol, UNSYMBOLIZED)]
        else [];
      assert UnsymbolizedFrames(frames, n) == UnsymbolizedFrames(frames, n - 1) + last;
      assert e in last <==> IsUnsymbolized(frames, n - 1, e);
    }
  }

  lemma InHotspotEvidence(f: Findings, e: Evidence)
    ensures e in HotspotEvidence(f) + FramesEvidence(HotspotOf(f)) <==>
            || (exists i: nat :: IsFrameTrouble(f, e, i))
            || (f.runState.D? && f.stack == [] && e == Evidence(FRAMES_PATH, NoSymbol, NO_STACK))
  {
    hide FramePath, Address;
    if f.runState.D? {
      var n := Min(TOP_N, |f.stack|);
      var frames := FramesOf(f.stack, f.symbolize, n);
      InFailedFrames(f.stack, f.symbolize, n, e);
      InUnsymbolizedFrames(frames, n, e);
      forall i: nat | i < n
        ensures IsFrameTrouble(f, e, i) <==> IsFailure(f.stack, f.symbolize, i, e) || IsUnsymbolized(frames, i, e)
      {}
      hide FailedFrames, UnsymbolizedFrames, FramesOf;
      assert forall i: nat | IsFrameTrouble(f, e, i) :: i < n;
    }
  }

  lemma InMismatchEvidence(f: Findings, e: Evidence)
    ensures e in MismatchEvidence(f, HotspotOf(f)) <==> IsMismatch(f, e)
  {
    hide FramePath, Address, Normalize;
  }

  lemma InAsEvidence(degradations: seq<Degradation>, e: Evidence)
    ensures e in AsEvidence(degradations) <==> e.confidence == NoSymbol && Degradation(e.path, e.reason) in degradations
  {
    var all := AsEvidence(degradations);
    if e.confidence == NoSymbol && Degradation(e.path, e.reason) in degradations {
      var i :| 0 <= i < |degradations| && degradations[i] == Degradation(e.path, e.reason);
      assert all[i] == e;
    }
  }

  lemma MissingNamed(f: Findings)
    requires !f.hasVoluntary || !f.hasNonvoluntary
    ensures MissingSwitches(f) == if f.hasNonvoluntary then VOLUNTARY
                                  else if f.hasVoluntary then NONVOLUNTARY
                                  else VOLUNTARY + " and " + NONVOLUNTARY
  {
    hide VOLUNTARY, NONVOLUNTARY;
  }

  lemma InAbsences(f: Findings, e: Evidence)
    ensures e in StateEvidence(f) + AbsenceEvidence(f) || (f.runState.D? && f.stack == [] && e == Evidence(FRAMES_PATH, NoSymbol, NO_STACK))
            <==> IsAbsence(f, e)
  {
    if !f.hasVoluntary || !f.hasNonvoluntary {
      MissingNamed(f);
    }
    hide MissingSwitches, VOLUNTARY, NONVOLUNTARY;
  }

  /** The evidence is exactly what the findings speak against. */
  lemma AllEvidenceIsExact(f: Findings, e: Evidence)
    ensures e in AllEvidence(f) <==> SpeaksAgainst(f, e)
  {
    InHotspotEvidence(f, e);
    InMismatchEvidence(f, e);
    InAsEvidence(f.procDegradations, e);
    InAsEvidence(f.mapsDegradations, e);
    InAbsences(f, e);
    hide HotspotEvidence, FramesEvidence, MismatchEvidence, AsEvidence, StateEvidence, AbsenceEvidence, IsMismatch, IsAbsence;
    hide IsFrameTrouble;
  }

  /** Something to be said: by the findings, or by the worker's fate. */
  ghost predicate Said(f: Findings, fate: seq<Evidence>, e: Evidence) {
    SpeaksAgainst(f, e) || e in fate
  }

  /** The confidence is the lowest of what is said against the path. */
  ghost predicate IsLowestSaid(confidence: SymbolConfidence, path: string, f: Findings, fate: seq<Evidence>) {
    && (exists e: Evidence :: Said(f, fate, e) && e.path == path && e.confidence == confidence)
    && (forall e: Evidence | Said(f, fate, e) && e.path == path :: Score(confidence) <= Score(e.confidence))
  }

  /** The list tells everything that is to be said, once for each path, and nothing else. */
  ghost predicate TellsAll(fields: seq<LowField>, f: Findings, fate: seq<Evidence>) {
    && Unique(fields)
    && (forall e: Evidence | Said(f, fate, e) :: Keeps(fields, e))
    && (forall i | 0 <= i < |fields| ::
          fields[i].confidence.Some? && IsLowestSaid(fields[i].confidence.value, fields[i].path, f, fate))
  }

  lemma SaidIsListed(f: Findings, fate: seq<Evidence>, e: Evidence)
    ensures Said(f, fate, e) <==> e in AllEvidence(f) + fate
  {
    AllEvidenceIsExact(f, e);
    hide SpeaksAgainst, AllEvidence;
  }

  lemma LowestIsLowestSaid(confidence: SymbolConfidence, path: string, f: Findings, fate: seq<Evidence>)
    requires IsLowest(confidence, path, AllEvidence(f) + fate)
    ensures IsLowestSaid(confidence, path, f, fate)
  {
    var all := AllEvidence(f) + fate;
    hide AllEvidence, Said, Score;
    var j :| 0 <= j < |all| && all[j].path == path && all[j].confidence == confidence;
    SaidIsListed(f, fate, all[j]);
    forall e: Evidence | Said(f, fate, e) && e.path == path ensures Score(confidence) <= Score(e.confidence) {
      SaidIsListed(f, fate, e);
      var k :| 0 <= k < |all| && all[k] == e;
    }
  }

  lemma RecordsTellAll(fields: seq<LowField>, f: Findings, fate: seq<Evidence>)
    requires Records(fields, AllEvidence(f) + fate)
    ensures TellsAll(fields, f, fate)
  {
    hide AllEvidence, Said, IsLowest, IsLowestSaid, Keeps;
    forall e: Evidence | Said(f, fate, e) ensures Keeps(fields, e) {
      SaidIsListed(f, fate, e);
    }
    forall i | 0 <= i < |fields|
      ensures fields[i].confidence.Some? && IsLowestSaid(fields[i].confidence.value, fields[i].path, f, fate)
    {
      LowestIsLowestSaid(fields[i].confidence.value, fields[i].path, f, fate);
    }
  }

  // Building the summary

  /** The paths of the frames that failed so far are older frames' paths, so pushing one more is a merge. */
  lemma FailedFramePaths(stack: seq<StackLine>, symbolize: Symbolizer, n: nat, j: nat)
    requires n <= |stack| && j < |FailedFrames(stack, symbolize, n)|
    ensures exists i | 0 <= i < n :: FailedFrames(stack, symbolize, n)[j].path == FramePath(i)
  {
    hide FramePath;
    if n > 0 {
      if j < |FailedFrames(stack, symbolize, n - 1)| {
        FailedFramePaths(stack, symbolize, n - 1, j);
      }
    }
  }

  lemma PushIsMerge(stack: seq<StackLine>, symbolize: Symbolizer, n: nat, e: Evidence)
    requires n <= |stack| && e.path == FramePath(n)
    ensures var fields := MergedAll([], FailedFrames(stack, symbolize, n));
            Merged(fields, e) == fields + [LowField(e.path, Some(e.confidence), e.reason)]
  {
    var all := FailedFrames(stack, symbolize, n);
    var fields := MergedAll([], all);
    NothingIsLost(all);
    forall i | 0 <= i < |fields| ensures fields[i].path != e.path {
      assert IsLowest(fields[i].confidence.value, fields[i].path, all);
      var j :| 0 <= j < |all| && all[j].path == fields[i].path;
      FailedFramePaths(stack, symbolize, n, j);
      var older :| 0 <= older < n && all[j].path == FramePath(older);
      if FramePath(older) == FramePath(n) {
        FramePathsDiffer(older, n);
      }
    }
    hide FramePath, MergedAll, FailedFrames;
  }

  /** The entry for a frame that failed. */
  function FailureOf(idx: nat, answer: Answer): seq<LowField> {
    if answer.Unresolved? then [LowField(FramePath(idx), Some(Kallsyms), answer.reason)] else []
  }

  lemma PushAllIsMergeAll(stack: seq<StackLine>, symbolize: Symbolizer, n: nat)
    requires n < |stack|
    ensures MergedAll([], FailedFrames(stack, symbolize, n + 1)) ==
            MergedAll([], FailedFrames(stack, symbolize, n)) + FailureOf(n, symbolize(n, Address(stack[n])))
  {
    var answer := symbolize(n, Address(stack[n]));
    var front := FailedFrames(stack, symbolize, n);
    if answer.Unresolved? {
      var e := Evidence(FramePath(n), Kallsyms, answer.reason);
      PushIsMerge(stack, symbolize, n, e);
      assert (front + [e])[..|front|] == front;
    } else {
      assert front + [] == front;
    }
  }

  method BuildFrame(idx: nat, line: StackLine, symbolize: Symbolizer) returns (frame: Frame, failure: seq<LowField>)
    ensures frame == FrameOf(idx, line, symbolize)
    ensures failure == FailureOf(idx, symbolize(idx, Address(line)))
  {
    match symbolize(idx, Address(line)) {
      case Resolved(symbol) =>
        return Frame(idx, line.addr, Some(symbol), Some(symbol.source)), [];
      case Unresolved(reason) =>
        failure := [LowField(FramePath(idx), Some(Kallsyms), reason)];
        frame := Frame(idx, line.addr, Some(Symbolized(line.raw, Kallsyms)), Some(Kallsyms));
    }
  }

  /** The frame shows its line, and what the symbolizer said of it: its symbol with its grade, or the raw name as one of
      kallsyms. */
  predicate ShowsAnswer(frame: Frame, idx: nat, line: StackLine, answer: Answer) {
    && frame.idx == idx && frame.addr == line.addr
    && match answer
       case Resolved(symbol) => frame.symbol == Some(symbol) && frame.confidence == Some(symbol.source)
       case Unresolved(_) => frame.symbol == Some(Symbolized(line.raw, Kallsyms)) && frame.confidence == Some(Kallsyms)
  }

  lemma MergedSmall(e: Evidence)
    ensures MergedAll([], []) == []
    ensures MergedAll([], [e]) == [LowField(e.path, Some(e.confidence), e.reason)]
  {}

  /** The loop of build_hotspot. */
  method BuildFrames(stack: seq<StackLine>, symbolize: Symbolizer, takeN: nat)
    returns (frames: seq<Frame>, lowFields: seq<LowField>)
    requires takeN <= |stack|
    ensures frames == FramesOf(stack, symbolize, takeN)
    ensures lowFields == MergedAll([], FailedFrames(stack, symbolize, takeN))
  {
    hide FramePath, Address, FrameOf, FailureOf, Merged, MergedAll;
    frames, lowFields := [], [];
    MergedSmall(Evidence("", NoSymbol, ""));
    for idx := 0 to takeN
      invariant frames == FramesOf(stack, symbolize, idx)
      invariant lowFields == MergedAll([], FailedFrames(stack, symbolize, idx))
    {
      PushAllIsMergeAll(stack, symbolize, idx);
      var frame, failure := BuildFrame(idx, stack[idx], symbolize);
      lowFields := lowFields + failure;
      frames := frames + [frame];
    }
  }

  /** build_hotspot */
  method BuildHotspot(f: Findings) returns (hotspot: Hotspot, lowFields: seq<LowField>)
    ensures hotspot == HotspotOf(f)
    ensures hotspot.Blocked? <==> f.runState.D?
    ensures hotspot.Blocked? ==>
              && |hotspot.frames| == (if |f.stack| < 5 then |f.stack| else 5)
              && forall i | 0 <= i < |hotspot.frames| ::
                   ShowsAnswer(hotspot.frames[i], i, f.stack[i], f.symbolize(i, Address(f.stack[i])))
    ensures lowFields == MergedAll([], HotspotEvidence(f))
  {
    hide FramesOf, FailedFrames, Merged, MergedAll;
    MergedSmall(Evidence(FRAMES_PATH, NoSymbol, NO_STACK));
    if !f.runState.D? {
      return NotBlocked, [];
    }
    if f.stack == [] {
      assert FramesOf(f.stack, f.symbolize, 0) == [];
      return Blocked([]), [LowField(FRAMES_PATH, Some(NoSymbol), NO_STACK)];
    }
    var frames;
    frames, lowFields := BuildFrames(f.stack, f.symbolize, Min(TOP_N, |f.stack|));
    hotspot := Blocked(frames);
  }

  /** The part of a Level 0 result that depends on the evidence. `encodedBytes` is the length of its serialised form with
      the token field at zero; everything that does not change after it is built is in that function. */
  class Level0 {
    const hotspot: Hotspot
    const lowFields: Recorder
    const encodedBytes: (seq<LowField>, real) -> nat
    var overall: real
    var token: nat

    constructor (hotspot: Hotspot, lowFields: Recorder, encodedBytes: (seq<LowField>, real) -> nat)
      ensures Consistent() && this.hotspot == hotspot && this.lowFields == lowFields && this.encodedBytes == encodedBytes
    {
      this.hotspot := hotspot;
      this.lowFields := lowFields;
      this.encodedBytes := encodedBytes;
      this.overall := Overall(hotspot, |lowFields.fields|);
      this.token := Tokens(encodedBytes(lowFields.fields, Overall(hotspot, |lowFields.fields|)));
    }

    /** The summary fits the final list, and the token estimate fits the final payload. */
    ghost predicate Consistent()
      reads this, lowFields
    {
      && overall == Overall(hotspot, |lowFields.fields|)
      && token == Tokens(encodedBytes(lowFields.fields, overall))
    }

    method RecordSymbolizerDegradation(reason: string)
      modifies this, lowFields
      ensures Consistent()
      ensures lowFields.fields == Merged(old(lowFields.fields), Evidence(FRAMES_PATH, NoSymbol, reason))
      ensures overall <= Overall(hotspot, |old(lowFields.fields)|)
    {
      lowFields.Merge(FRAMES_PATH, NoSymbol, reason);
      overall := Overall(hotspot, |lowFields.fields|);
      token := Tokens(encodedBytes(lowFields.fields, overall));
      ghost var e := Evidence(FRAMES_PATH, NoSymbol, reason);
      assert MergedAll(old(lowFields.fields), [e]) == Merged(old(lowFields.fields), e);
      EvidenceNeverRaises(hotspot, old(lowFields.fields), [e]);
    }
  }
}
