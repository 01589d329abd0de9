/** The list of low-confidence fields: one entry for each path, whatever is merged into it in whatever order. */
module LowFields {
  import opened Common

  datatype SymbolConfidence = Dwarf | Kallsyms | Dynsym | Disasm | NoSymbol

  function Score(confidence: SymbolConfidence): (score: real)
    ensures 0.0 <= score <= 1.0
  {
    match confidence
    case Dwarf => 1.0
    case Kallsyms => 0.75
    case Dynsym => 0.5
    case Disasm => 0.25
    case NoSymbol => 0.0
  }

  /** The five grades, a quarter apart, from certain to worthless. */
  lemma ScoresFall(a: SymbolConfidence, b: SymbolConfidence)
    ensures Score(Dwarf) == 1.0 && Score(NoSymbol) == 0.0
    ensures Score(Dwarf) - Score(Kallsyms) == Score(Kallsyms) - Score(Dynsym) == Score(Dynsym) - Score(Disasm)
    ensures Score(Disasm) - Score(NoSymbol) == 0.25 == Score(Dwarf) - Score(Kallsyms)
    ensures Score(a) == Score(b) ==> a == b
  {}

  datatype LowField = LowField(path: string, confidence: Option<SymbolConfidence>, reason: string)

  /** One piece of evidence against one path. */
  datatype Evidence = Evidence(path: string, confidence: SymbolConfidence, reason: string)

  datatype Degradation = Degradation(path: string, reason: string)

  /** A degraded read says nothing in favour of its path. */
  function AsEvidence(degradations: seq<Degradation>): seq<Evidence> {
    seq(|degradations|, i requires 0 <= i < |degradations| =>
      Evidence(degradations[i].path, NoSymbol, degradations[i].reason))
  }

  /** The first entry for the path, or the number of entries. */
  function IndexOf(fields: seq<LowField>, path: string): (i: nat)
    ensures i <= |fields|
    ensures i < |fields| ==> fields[i].path == path
    ensures forall j | 0 <= j < i :: fields[j].path != path
  {
    if fields == [] then 0
    else if fields[0].path == path then 0
    else 1 + IndexOf(fields[1..], path)
  }

  function Combine(field: LowField, e: Evidence): LowField {
    var confidence :=
      if field.confidence.Some? && Score(field.confidence.value) <= Score(e.confidence) then field.confidence.value
      else e.confidence;
    var reason := if field.reason != e.reason then field.reason + "; " + e.reason else field.reason;
    LowField(field.path, Some(confidence), reason)
  }

  function Merged(fields: seq<LowField>, e: Evidence): seq<LowField> {
    var i := IndexOf(fields, e.path);
    if i < |fields| then fields[i := Combine(fields[i], e)]
    else fields + [LowField(e.path, Some(e.confidence), e.reason)]
  }

  function MergedAll(fields: seq<LowField>, all: seq<Evidence>): seq<LowField> {
    if all == [] then fields
    else Merged(MergedAll(fields, all[..|all| - 1]), all[|all| - 1])
  }

  class Recorder {
    var fields: seq<LowField>

    constructor (fields: seq<LowField>)
      ensures this.fields == fields
    {
      this.fields := fields;
    }

    /** merge_low_confidence_field */
    method Merge(path: string, confidence: SymbolConfidence, reason: string)
      modifies this
      ensures fields == Merged(old(fields), Evidence(path, confidence, reason))
    {
      var i := 0;
      while i < |fields| && fields[i].path != path
        invariant i <= |fields|
        invariant forall j | 0 <= j < i :: fields[j].path != path
      {
        i := i + 1;
      }
      assert i == IndexOf(fields, path);
      if i < |fields| {
        var existing := fields[i];
        var merged := match existing.confidence
          case Some(current) => if Score(current) <= Score(confidence) then current else confidence
          case None => confidence;
        existing := existing.(confidence := Some(merged));
        if existing.reason != reason {
          existing := existing.(reason := existing.reason + "; " + reason);
        }
        fields := fields[i := existing];
        return;
      }
      fields := fields + [LowField(path, Some(confidence), reason)];
    }

    /** merge_proc_degradations */
    method MergeDegradations(degradations: seq<Degradation>)
      modifies this
      ensures fields == MergedAll(old(fields), AsEvidence(degradations))
    {
      ghost var all := AsEvidence(degradations);
      for i := 0 to |degradations|
        invariant fields == MergedAll(old(fields), all[..i])
      {
        Merge(degradations[i].path, NoSymbol, degradations[i].reason);
        assert all[..i + 1][..i] == all[..i];
      }
      assert all[..|degradations|] == all;
    }
  }

  // What the list says about the evidence

  predicate Unique(fields: seq<LowField>) {
    forall i, j | 0 <= i < j < |fields| :: fields[i].path != fields[j].path
  }

  /** The confidence is that of the worst evidence against the path. */
  ghost predicate IsLowest(confidence: SymbolConfidence, path: string, all: seq<Evidence>) {
    && (exists j | 0 <= j < |all| :: all[j].path == path && all[j].confidence == confidence)
    && (forall j | 0 <= j < |all| && all[j].path == path :: Score(confidence) <= Score(all[j].confidence))
  }

  predicate OccursAt(needle: string, hay: string, k: nat) {
    k + |needle| <= |hay| && hay[k..k + |needle|] == needle
  }

  ghost predicate Contains(hay: string, needle: string) {
    exists k: nat :: OccursAt(needle, hay, k)
  }

  ghost predicate Keeps(fields: seq<LowField>, e: Evidence) {
    exists i | 0 <= i < |fields| :: fields[i].path == e.path && Contains(fields[i].reason, e.reason)
  }

  /** Nothing is lost, nothing is made up. */
  ghost predicate Records(fields: seq<LowField>, all: seq<Evidence>) {
    && Unique(fields)
    && (forall i | 0 <= i < |fields| ::
          fields[i].confidence.Some? && IsLowest(fields[i].confidence.value, fields[i].path, all))
    && (forall e <- all :: Keeps(fields, e))
  }

  lemma ContainsMore(hay: string, needle: string, before: string, after: string)
    requires Contains(hay, needle)
    ensures Contains(before + hay + after, needle)
  {
    var k: nat :| OccursAt(needle, hay, k);
    assert (before + hay + after)[|before| + k..|before| + k + |needle|] == hay[k..k + |needle|];
    assert OccursAt(needle, before + hay + after, |before| + k);
  }

  lemma ContainsItself(s: string)
    ensures Contains(s, s)
  {
    assert OccursAt(s, s, 0);
  }

  lemma CombineKeepsReasons(field: LowField, e: Evidence, reason: string)
    requires Contains(field.reason, reason) || reason == e.reason
    ensures Contains(Combine(field, e).reason, reason)
  {
    ContainsItself(e.reason);
    if field.reason != e.reason {
      if Contains(field.reason, reason) {
        ContainsMore(field.reason, reason, "", "; " + e.reason);
        assert "" + field.reason + ("; " + e.reason) == field.reason + "; " + e.reason;
      } else {
        ContainsMore(e.reason, reason, field.reason + "; ", "");
        assert field.reason + "; " + e.reason + "" == field.reason + "; " + e.reason;
      }
    }
  }

  lemma MergeKeepsUnique(fields: seq<LowField>, e: Evidence)
    requires Unique(fields)
    ensures Unique(Merged(fields, e))
  {
    hide IndexOf;
  }

  lemma NewPathIsUnheard(fields: seq<LowField>, all: seq<Evidence>, path: string)
    requires Records(fields, all) && forall i | 0 <= i < |fields| :: fields[i].path != path
    ensures forall j | 0 <= j < |all| :: all[j].path != path
  {
    hide Contains, IsLowest, Unique;
    forall j | 0 <= j < |all| ensures all[j].path != path {
      assert Keeps(fields, all[j]);
    }
  }

  lemma MergeKeepsLowest(fields: seq<LowField>, all: seq<Evidence>, e: Evidence, i: nat)
    requires Records(fields, all) && i < |Merged(fields, e)|
    ensures var field := Merged(fields, e)[i];
            field.confidence.Some? && IsLowest(field.confidence.value, field.path, all + [e])
  {
    var after := all + [e];
    assert after[|all|] == e;
    if i < |fields| {
      var before := fields[i];
      var j :| 0 <= j < |all| && all[j].path == before.path && all[j].confidence == before.confidence.value;
      assert after[j] == all[j];
      assert i != IndexOf(fields, e.path) ==> before.path != e.path by {
        hide Keeps, IsLowest;
      }
    } else {
      NewPathIsUnheard(fields, all, e.path);
    }
    hide IndexOf, Keeps, Contains;
  }

  lemma MergeKeepsReasons(fields: seq<LowField>, e: Evidence, kept: Evidence)
    requires Keeps(fields, kept) || kept == e
    ensures Keeps(Merged(fields, e), kept)
  {
    var after := Merged(fields, e);
    var k := IndexOf(fields, e.path);
    hide IndexOf, Contains, Combine;
    if kept == e {
      if k < |fields| {
        CombineKeepsReasons(fields[k], e, e.reason);
        assert after[k] == Combine(fields[k], e) && Combine(fields[k], e).path == e.path by {
          CombineKeepsPath(fields[k], e);
        }
      } else {
        ContainsItself(e.reason);
        assert after[k].path == e.path;
      }
    } else {
      var i :| 0 <= i < |fields| && fields[i].path == kept.path && Contains(fields[i].reason, kept.reason);
      if i == k {
        CombineKeepsReasons(fields[i], e, kept.reason);
        CombineKeepsPath(fields[i], e);
      }
      assert after[i].path == kept.path && Contains(after[i].reason, kept.reason);
    }
  }

  lemma CombineKeepsPath(field: LowField, e: Evidence)
    ensures Combine(field, e).path == field.path
  {}

  lemma MergeRecords(fields: seq<LowField>, all: seq<Evidence>, e: Evidence)
    requires Records(fields, all)
    ensures Records(Merged(fields, e), all + [e])
  {
    MergeKeepsUnique(fields, e);
    forall i | 0 <= i < |Merged(fields, e)|
      ensures Merged(fields, e)[i].confidence.Some?
      ensures IsLowest(Merged(fields, e)[i].confidence.value, Merged(fields, e)[i].path, all + [e])
    {
      MergeKeepsLowest(fields, all, e, i);
    }
    forall kept <- all + [e] ensures Keeps(Merged(fields, e), kept) {
      MergeKeepsReasons(fields, e, kept);
    }
    hide Merged, IsLowest, Keeps, Unique;
  }

  /** After any merges, from nothing: one entry for each path, with the worst confidence and every reason. */
  lemma {:induction false} NothingIsLost(all: seq<Evidence>)
    ensures Records(MergedAll([], all), all)
  {
    if all != [] {
      var front := all[..|all| - 1];
      NothingIsLost(front);
      hide Records, Merged;
      MergeRecords(MergedAll([], front), front, all[|all| - 1]);
      assert front + [all[|all| - 1]] == all;
    }
  }

  lemma {:induction false} MergedAllInParts(fields: seq<LowField>, first: seq<Evidence>, second: seq<Evidence>)
    ensures MergedAll(fields, first + second) == MergedAll(MergedAll(fields, first), second)
  {
    hide Merged;
    if second == [] {
      assert first + second == first;
    } else {
      MergedAllInParts(fields, first, second[..|second| - 1]);
      assert (first + second)[..|first + second| - 1] == first + second[..|second| - 1];
    }
  }

  predicate Heard(fields: seq<LowField>, path: string) {
    exists i | 0 <= i < |fields| :: fields[i].path == path
  }

  /** The same entries are still there, and maybe more after them. */
  predicate Extends(fields: seq<LowField>, more: seq<LowField>) {
    |fields| <= |more| && forall i | 0 <= i < |fields| :: more[i].path == fields[i].path
  }

  predicate AllHeard(fields: seq<LowField>, all: seq<Evidence>) {
    forall j | 0 <= j < |all| :: Heard(fields, all[j].path)
  }

  lemma AllHeardStep(fields: seq<LowField>, front: seq<Evidence>, last: Evidence)
    ensures AllHeard(fields, front + [last]) <==> AllHeard(fields, front) && Heard(fields, last.path)
  {
    hide Heard;
    var all := front + [last];
    assert all[|front|] == last;
    if AllHeard(fields, all) {
      forall j | 0 <= j < |front| ensures Heard(fields, front[j].path) {
        assert all[j] == front[j];
      }
    }
  }

  lemma MergeGrows(fields: seq<LowField>, e: Evidence)
    ensures Extends(fields, Merged(fields, e))
    ensures |Merged(fields, e)| == |fields| <==> Heard(fields, e.path)
  {
    hide IndexOf;
  }

  lemma ExtendsFurther(fields: seq<LowField>, more: seq<LowField>, most: seq<LowField>)
    requires Extends(fields, more) && Extends(more, most)
    ensures Extends(fields, most)
  {}

  lemma HeardAlike(fields: seq<LowField>, more: seq<LowField>, path: string)
    requires Extends(fields, more) && |more| == |fields|
    ensures Heard(more, path) <==> Heard(fields, path)
  {}

  /** The list never shrinks, and grows exactly by what was never heard of. */
  lemma {:induction false} MergedAllGrows(fields: seq<LowField>, all: seq<Evidence>)
    ensures Extends(fields, MergedAll(fields, all))
    ensures |MergedAll(fields, all)| == |fields| <==> AllHeard(fields, all)
  {
    if all != [] {
      var front, last := all[..|all| - 1], all[|all| - 1];
      var before := MergedAll(fields, front);
      assert MergedAll(fields, all) == Merged(before, last);
      assert all == front + [last];
      hide Merged, MergedAll, Heard, AllHeard;
      MergedAllGrows(fields, front);
      MergeGrows(before, last);
      ExtendsFurther(fields, before, Merged(before, last));
      AllHeardStep(fields, front, last);
      if |before| == |fields| {
        HeardAlike(fields, before, last.path);
      }
    }
  }
}
