/**
  The dictionary branch of `recursiveReplacementInBoilerPlate` as a whole:
  a section's text is copied piece by piece, in order, with each child's
  span replaced by that child's replacement. The scanned tags come in
  order, so every scope of a template's tree lies between its parent's
  tags and after the sibling before it; the substring ranges the Swift
  code builds are then never the wrong way round, and the dictionary
  branch of a section can only fail at a missing end tag or at a child
  that fails.
 */
module Splicing {
  import opened Wrappers
  import opened Tags
  import opened Scanner
  import opened ScopeTree
  import opened Items
  import opened Rendering

  /** The scanned tags of a template are in order within it. */
  lemma ScanInOrder(t: string)
    ensures InOrder(Scan(t), |t|)
  {
    var tags := Scan(t);
    ScanFromTagsAt(t, 0);
    ScanFromGaps(t, 0);
    forall i | 0 <= i < |tags|
      ensures tags[i].range.lo < tags[i].range.hi <= |t|
    {
      assert tags[i] in tags;
    }
  }

  /** Every scope of a template's tree lies within the template, children between their parent's tags. */
  lemma RootLaid(t: string)
    ensures Laid(RootScope(t), |t|)
    ensures WellNested(RootScope(t))
  {
    ScanInOrder(t);
    ParseTreeLaid(Scan(t), |t|);
    ParseTreeWellNested(Scan(t), Range(0, |t|));
  }

  // ---------------------------------------------------------------------
  // The text between a section's children
  // ---------------------------------------------------------------------

  /** A scope with an end tag whose children all have one. */
  predicate Closed(s: Scope) {
    s.endTag.Some? && forall k :: 0 <= k < |s.children| ==> s.children[k].endTag.Some?
  }

  /** Where the `k`-th piece of a scope's own text starts: after its start tag, or after child `k - 1`. */
  function GapLo(s: Scope, k: nat): nat
    requires k <= |s.children| && (k > 0 ==> s.children[k - 1].endTag.Some?)
  {
    if k == 0 then s.startTag.range.hi else s.children[k - 1].endTag.value.range.hi
  }

  /** Where the `k`-th piece of a scope's own text ends: before child `k`, or before its end tag. */
  function GapHi(s: Scope, k: nat): nat
    requires k <= |s.children| && (k == |s.children| ==> s.endTag.Some?)
  {
    if k == |s.children| then s.endTag.value.range.lo else s.children[k].startTag.range.lo
  }

  /** In a laid-out section each piece of its own text is a range of the text, the right way round. */
  lemma GapFits(s: Scope, n: nat, k: nat)
    requires Laid(s, n) && s.startTag.tagType.ScopeOpen?
    requires k <= |s.children| && (k > 0 ==> s.children[k - 1].endTag.Some?)
    requires k == |s.children| ==> s.endTag.Some?
    ensures GapLo(s, k) <= GapHi(s, k) <= n
  {
    if k < |s.children| {
      assert s.children[k] in s.children;
    }
  }

  /** `gaps[0] + reps[0] + gaps[1] + … + reps[m - 1] + gaps[m]`. */
  function Interleave(gaps: seq<string>, reps: seq<string>): string
    requires |gaps| == |reps| + 1
    decreases |reps|
  {
    if reps == [] then gaps[0] else gaps[0] + reps[0] + Interleave(gaps[1..], reps[1..])
  }

  /** The pieces of a closed section's own text: before the first child, between each two, after the last. */
  function Gaps(t: string, s: Scope): (gaps: seq<string>)
    requires Laid(s, |t|) && s.startTag.tagType.ScopeOpen? && Closed(s)
    ensures |gaps| == |s.children| + 1
  {
    seq(|s.children| + 1, k requires 0 <= k <= |s.children| =>
      GapFits(s, |t|, k);
      t[GapLo(s, k)..GapHi(s, k)])
  }

  /** The section's text with child `k`'s span replaced by `reps[k]` for every `k`. */
  function Splice(t: string, s: Scope, reps: seq<string>): string
    requires Laid(s, |t|) && s.startTag.tagType.ScopeOpen? && Closed(s)
    requires |reps| == |s.children|
  {
    Interleave(Gaps(t, s), reps)
  }

  // ---------------------------------------------------------------------
  // The dictionary branch splices
  // ---------------------------------------------------------------------

  /** From child `k` on, a closed section whose children all render splices their renderings in. */
  lemma {:induction false} SplicedFrom(fuel: nat, lib: Option<map<string, string>>, t: string, s: Scope,
                                       value: Item, chain: seq<Item>, reps: seq<string>, k: nat)
    requires value.Dict? && Laid(s, |t|) && s.startTag.tagType.ScopeOpen? && Closed(s)
    requires |reps| == |s.children| && k <= |s.children|
    requires forall j :: k <= j < |s.children| ==> Replacement(fuel, lib, t, s, value, chain, j) == Rendered(reps[j])
    ensures RenderChildren(fuel, lib, t, s, value, chain, k, GapLo(s, k))
         == Rendered(Interleave(Gaps(t, s)[k..], reps[k..]))
    decreases |s.children| - k
  {
    var gaps := Gaps(t, s);
    GapFits(s, |t|, k);
    if k == |s.children| {
      assert gaps[k..] == [gaps[k]];
    } else {
      var child := s.children[k];
      ChildrenStep(fuel, lib, t, s, value, chain, k, GapLo(s, k));
      SplicedFrom(fuel, lib, t, s, value, chain, reps, k + 1);
      assert gaps[k..][1..] == gaps[k + 1..];
      assert reps[k..][1..] == reps[k + 1..];
    }
  }

  /**
    A closed section rendered against a dictionary, when every child's
    replacement renders, is its own text with each child's span replaced
    by that child's replacement.
   */
  lemma SectionSplices(fuel: nat, lib: Option<map<string, string>>, t: string, s: Scope,
                       value: Item, chain: seq<Item>, reps: seq<string>)
    requires value.Dict? && Laid(s, |t|) && s.startTag.tagType.ScopeOpen? && Closed(s)
    requires |reps| == |s.children|
    requires forall j :: 0 <= j < |s.children| ==> Replacement(fuel, lib, t, s, value, chain, j) == Rendered(reps[j])
    ensures RenderScope(fuel, lib, t, s, value, chain) == Rendered(Splice(t, s, reps))
  {
    SplicedFrom(fuel, lib, t, s, value, chain, reps, 0);
    assert Gaps(t, s)[0..] == Gaps(t, s);
    assert reps[0..] == reps;
  }

  /** How the dictionary branch fails at child `j`: that child's failure, or a trap at a missing end tag. */
  function FailureAt(fuel: nat, lib: Option<map<string, string>>, t: string, s: Scope,
                     value: Item, chain: seq<Item>, j: nat): Outcome
    requires j <= |s.children|
  {
    if j < |s.children| && !Replacement(fuel, lib, t, s, value, chain, j).Rendered? then
      Replacement(fuel, lib, t, s, value, chain, j)
    else Trap
  }

  /**
    Child `j` is where the dictionary branch of `s` first fails: every child
    before it is closed and renders, and child `j` fails or has no end tag
    (or, past the last child, the section has no end tag).
   */
  predicate FirstFailure(fuel: nat, lib: Option<map<string, string>>, t: string, s: Scope,
                         value: Item, chain: seq<Item>, j: nat)
    requires j <= |s.children|
  {
    && (forall i :: 0 <= i < j ==>
          s.children[i].endTag.Some? && Replacement(fuel, lib, t, s, value, chain, i).Rendered?)
    && (j < |s.children| ==>
          !Replacement(fuel, lib, t, s, value, chain, j).Rendered? || s.children[j].endTag.None?)
    && (j == |s.children| ==> s.endTag.None?)
  }

  /** From child `k` up to the first failure `j`, the walk ends in that failure. */
  lemma {:induction false} FailsFrom(fuel: nat, lib: Option<map<string, string>>, t: string, s: Scope,
                                     value: Item, chain: seq<Item>, j: nat, k: nat)
    requires value.Dict? && Laid(s, |t|) && s.startTag.tagType.ScopeOpen?
    requires k <= j <= |s.children| && FirstFailure(fuel, lib, t, s, value, chain, j)
    ensures RenderChildren(fuel, lib, t, s, value, chain, k, GapLo(s, k)) == FailureAt(fuel, lib, t, s, value, chain, j)
    decreases j - k
  {
    if k < |s.children| {
      GapFits(s, |t|, k);
      ChildrenStep(fuel, lib, t, s, value, chain, k, GapLo(s, k));
      if k < j {
        FailsFrom(fuel, lib, t, s, value, chain, j, k + 1);
      }
    }
  }

  /**
    A section rendered against a dictionary fails exactly where its first
    child fails or where the first missing end tag is met: no substring
    range is the wrong way round.
   */
  lemma SectionFails(fuel: nat, lib: Option<map<string, string>>, t: string, s: Scope,
                     value: Item, chain: seq<Item>, j: nat)
    requires value.Dict? && Laid(s, |t|) && s.startTag.tagType.ScopeOpen?
    requires j <= |s.children| && FirstFailure(fuel, lib, t, s, value, chain, j)
    ensures RenderScope(fuel, lib, t, s, value, chain) == FailureAt(fuel, lib, t, s, value, chain, j)
    ensures !RenderScope(fuel, lib, t, s, value, chain).Rendered?
  {
    FailsFrom(fuel, lib, t, s, value, chain, j, 0);
  }

  /** From child `k` on, either every child is closed and renders and so is the section, or some child is the first failure. */
  lemma {:induction false} FailureOrSplice(fuel: nat, lib: Option<map<string, string>>, t: string, s: Scope,
                                           value: Item, chain: seq<Item>, k: nat)
    requires k <= |s.children|
    requires forall i :: 0 <= i < k ==>
      s.children[i].endTag.Some? && Replacement(fuel, lib, t, s, value, chain, i).Rendered?
    ensures || (Closed(s) && forall i :: 0 <= i < |s.children| ==> Replacement(fuel, lib, t, s, value, chain, i).Rendered?)
            || exists j :: k <= j <= |s.children| && FirstFailure(fuel, lib, t, s, value, chain, j)
    decreases |s.children| - k
  {
    if k == |s.children| {
      if s.endTag.None? {
        assert FirstFailure(fuel, lib, t, s, value, chain, k);
      }
    } else if s.children[k].endTag.None? || !Replacement(fuel, lib, t, s, value, chain, k).Rendered? {
      assert FirstFailure(fuel, lib, t, s, value, chain, k);
    } else {
      FailureOrSplice(fuel, lib, t, s, value, chain, k + 1);
    }
  }

  /**
    The dictionary branch of a section has exactly two outcomes: when the
    section and all its children are closed and every child renders, the
    splice of their renderings (`SectionSplices`); otherwise the failure at
    the first child that fails or lacks an end tag, or a trap at the
    section's own missing end tag (`SectionFails`).
   */
  lemma SectionCases(fuel: nat, lib: Option<map<string, string>>, t: string, s: Scope,
                     value: Item, chain: seq<Item>)
    ensures || (Closed(s) && forall i :: 0 <= i < |s.children| ==> Replacement(fuel, lib, t, s, value, chain, i).Rendered?)
            || exists j :: 0 <= j <= |s.children| && FirstFailure(fuel, lib, t, s, value, chain, j)
  {
    FailureOrSplice(fuel, lib, t, s, value, chain, 0);
  }

  /**
    A leaf rendered against a dictionary traps: its end tag is its own
    start tag, so the text from the end of the one to the start of the
    other is a range the wrong way round.
   */
  lemma LeafTraps(fuel: nat, lib: Option<map<string, string>>, t: string, s: Scope,
                  value: Item, chain: seq<Item>)
    requires value.Dict? && Laid(s, |t|) && WellNested(s) && !s.startTag.tagType.ScopeOpen?
    ensures RenderScope(fuel, lib, t, s, value, chain) == Trap
  {
  }

  /**
    `render(with:)` of a template whose top-level sections are all closed,
    when every top-level child's replacement renders: the template with
    each child's span replaced.
   */
  lemma TemplateSplices(lib: Option<map<string, string>>, template: string, substitutions: map<string, Item>,
                        fuel: nat, reps: seq<string>)
    requires Closed(RootScope(template)) && |reps| == |RootScope(template).children|
    requires forall j :: 0 <= j < |reps| ==>
      Replacement(fuel, lib, template, RootScope(template), Dict(substitutions), [], j) == Rendered(reps[j])
    ensures Laid(RootScope(template), |template|)
    ensures RenderTemplate(lib, template, substitutions, fuel) == Rendered(Splice(template, RootScope(template), reps))
  {
    RootLaid(template);
    SectionSplices(fuel, lib, template, RootScope(template), Dict(substitutions), [], reps);
  }

  // ---------------------------------------------------------------------
  // Splicing copies the text outside the children exactly once
  // ---------------------------------------------------------------------

  /** The text each child of a closed scope spans, its tags included. */
  function OwnTexts(t: string, s: Scope): (texts: seq<string>)
    requires Laid(s, |t|) && Closed(s)
    ensures |texts| == |s.children|
  {
    seq(|s.children|, k requires 0 <= k < |s.children| =>
      ChildSpan(s, |t|, k);
      t[s.children[k].startTag.range.lo..s.children[k].endTag.value.range.hi])
  }

  /** A closed child of a laid-out scope spans a range of the text, the right way round. */
  lemma ChildSpan(s: Scope, n: nat, k: nat)
    requires Laid(s, n) && k < |s.children| && s.children[k].endTag.Some?
    ensures s.children[k].startTag.range.lo <= s.children[k].endTag.value.range.hi <= n
  {
    assert s.children[k] in s.children;
  }

  /** From child `k` on, splicing each child's own text back in gives the text up to the end tag. */
  lemma {:induction false} SpliceOwnFrom(t: string, s: Scope, k: nat)
    requires Laid(s, |t|) && s.startTag.tagType.ScopeOpen? && Closed(s) && k <= |s.children|
    ensures GapLo(s, k) <= s.endTag.value.range.lo
    ensures Interleave(Gaps(t, s)[k..], OwnTexts(t, s)[k..]) == t[GapLo(s, k)..s.endTag.value.range.lo]
    decreases |s.children| - k
  {
    var gaps, own := Gaps(t, s), OwnTexts(t, s);
    GapFits(s, |t|, k);
    if k == |s.children| {
      assert gaps[k..] == [gaps[k]];
    } else {
      ChildSpan(s, |t|, k);
      SpliceOwnFrom(t, s, k + 1);
      InterleaveStep(gaps, own, k);
      SliceThree(t, GapLo(s, k), s.children[k].startTag.range.lo, GapLo(s, k + 1), s.endTag.value.range.lo);
    }
  }

  /** Interleaving from piece `k` is piece `k`, replacement `k`, then interleaving from `k + 1`. */
  lemma InterleaveStep(gaps: seq<string>, reps: seq<string>, k: nat)
    requires |gaps| == |reps| + 1 && k < |reps|
    ensures Interleave(gaps[k..], reps[k..]) == gaps[k] + reps[k] + Interleave(gaps[k + 1..], reps[k + 1..])
  {
    assert gaps[k..][1..] == gaps[k + 1..];
    assert reps[k..][1..] == reps[k + 1..];
  }

  /** Three adjacent ranges of a text make up their union. */
  lemma SliceThree(t: string, lo: nat, mid: nat, hi: nat, end: nat)
    requires lo <= mid <= hi <= end <= |t|
    ensures t[lo..end] == t[lo..mid] + t[mid..hi] + t[hi..end]
  {
  }

  /**
    Splicing is faithful to the text around the children: with every child
    replaced by the text it spans, a closed section splices back to exactly
    the text between its tags.
   */
  lemma SpliceOwnTexts(t: string, s: Scope)
    requires Laid(s, |t|) && s.startTag.tagType.ScopeOpen? && Closed(s)
    ensures s.startTag.range.hi <= s.endTag.value.range.lo
    ensures Splice(t, s, OwnTexts(t, s)) == t[s.startTag.range.hi..s.endTag.value.range.lo]
  {
    SpliceOwnFrom(t, s, 0);
    assert Gaps(t, s)[0..] == Gaps(t, s);
    assert OwnTexts(t, s)[0..] == OwnTexts(t, s);
  }
}
