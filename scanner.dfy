/**
  The tag scanner `String.allTemplateEntries`: find each `{{`, the first
  `}}` after it, classify the text in between, and go on after the `}}`.
  Scanning stops, keeping what it found, at a `{{` with no later `}}` or
  with empty content.
 */
module Scanner {
  import opened Wrappers
  import opened Strings
  import opened Tags

  /**
    One round of the scan from offset `from`: the next tag and the offset
    after its `}}`, or nothing when scanning stops there.
   */
  function NextTag(s: string, from: nat): (r: Option<(Tag, nat)>)
    ensures r.Some? ==> from < r.value.1 <= |s|
  {
    match FindPair(s, '{', from)
    case None => None
    case Some(open) =>
      match FindPair(s, '}', open + 2)
      case None => None
      case Some(close) =>
        match TemplateInfo(s[open + 2..close])
        case None => None
        case Some(info) => Some((Tag(info.tagType, Range(open, close + 2), info.name), close + 2))
  }

  /** The tags of `s` found by scanning from offset `from` on. */
  function ScanFrom(s: string, from: nat): seq<Tag>
    decreases |s| - from
  {
    match NextTag(s, from)
    case None => []
    case Some((tag, next)) => [tag] + ScanFrom(s, next)
  }

  /** All the tags of a template, left to right. */
  function Scan(s: string): seq<Tag> {
    ScanFrom(s, 0)
  }

  /**
    The body of the `allTemplateEntries` loop: look for `{{` from
    `searchFrom`, then for `}}` after it, then classify the content; give up
    at the first of these that fails.
   */
  method ScanRound(s: string, searchFrom: nat) returns (found: Option<(Tag, nat)>)
    ensures found == NextTag(s, searchFrom)
  {
    var foundOpen := FindPair(s, '{', searchFrom);
    if foundOpen.None? {
      return None;
    }
    var open := foundOpen.value;
    var foundClose := FindPair(s, '}', open + 2);
    if foundClose.None? {
      return None;
    }
    var close := foundClose.value;
    var info := TemplateInfo(s[open + 2..close]);
    if info.None? {
      return None;
    }
    found := Some((Tag(info.value.tagType, Range(open, close + 2), info.value.name), close + 2));
  }

  /** `allTemplateEntries`: collect tags round by round, narrowing the search range after each tag. */
  method AllTemplateEntries(s: string) returns (entries: seq<Tag>)
    ensures entries == Scan(s)
  {
    entries := [];
    var searchFrom := 0;
    while true
      invariant searchFrom <= |s|
      invariant entries + ScanFrom(s, searchFrom) == Scan(s)
      decreases |s| - searchFrom
    {
      var found := ScanRound(s, searchFrom);
      if found.None? {
        break;
      }
      var (tag, next) := found.value;
      assert ScanFrom(s, searchFrom) == [tag] + ScanFrom(s, next);
      entries := entries + [tag];
      searchFrom := next;
      assert entries + ScanFrom(s, searchFrom) == Scan(s);
      if searchFrom == |s| {
        // nothing can be found in an empty range: the source's own check is redundant
        ScanFromEnd(s);
        break;
      }
    }
  }

  lemma ScanFromEnd(s: string)
    ensures ScanFrom(s, |s|) == []
  {
    assert FindPair(s, '{', |s|).None?;
  }

  /**
    `t` is a tag of `s`: its span starts at a `{{` and ends just after the
    first `}}` that follows, the content in between is not empty, and the
    tag's kind and name are the classification of that content.
   */
  predicate TagAt(s: string, t: Tag) {
    var lo, hi := t.range.lo, t.range.hi;
    && lo + 4 < hi <= |s|
    && PairAt(s, '{', lo)
    && PairAt(s, '}', hi - 2)
    && NoPairBetween(s, '}', lo + 2, hi - 2)
    && TemplateInfo(s[lo + 2..hi - 2]) == Some(TagInfo(t.tagType, t.name))
  }

  /**
    A tag found by one round is a tag of `s` that starts at the first `{{`
    from `from`, and the round goes on right after it.
   */
  lemma NextTagAt(s: string, from: nat)
    requires NextTag(s, from).Some?
    ensures var (tag, next) := NextTag(s, from).value;
      && TagAt(s, tag) && from <= tag.range.lo && tag.range.hi == next
      && NoPairBetween(s, '{', from, tag.range.lo)
  {
    var open := FindPair(s, '{', from).value;
    var close := FindPair(s, '}', open + 2).value;
    var info := TemplateInfo(s[open + 2..close]).value;
    assert NextTag(s, from).value.0 == Tag(info.tagType, Range(open, close + 2), info.name);
  }

  /** One step of the scan, in terms of the round that takes it. */
  lemma ScanFromStep(s: string, from: nat)
    ensures NextTag(s, from).None? <==> ScanFrom(s, from) == []
    ensures NextTag(s, from).Some? ==>
      ScanFrom(s, from) == [NextTag(s, from).value.0] + ScanFrom(s, NextTag(s, from).value.1)
  {
  }

  /** Every scanned tag is a tag of `s` found at or after `from`. */
  lemma {:induction false} ScanFromTagsAt(s: string, from: nat)
    ensures forall t :: t in ScanFrom(s, from) ==> TagAt(s, t) && from <= t.range.lo
    decreases |s| - from
  {
    ScanFromStep(s, from);
    if NextTag(s, from).Some? {
      var (tag, next) := NextTag(s, from).value;
      NextTagAt(s, from);
      ScanFromTagsAt(s, next);
    }
  }

  /**
    The scanned tags follow one another without overlapping, and each one
    starts at the first `{{` after the end of the previous tag (or after
    `from`): the scan skips no tag.
   */
  lemma {:induction false} ScanFromGaps(s: string, from: nat)
    ensures var tags := ScanFrom(s, from);
      && (|tags| > 0 ==> NoPairBetween(s, '{', from, tags[0].range.lo))
      && (forall i :: 0 <= i < |tags| - 1 ==>
            tags[i].range.hi <= tags[i + 1].range.lo
            && NoPairBetween(s, '{', tags[i].range.hi, tags[i + 1].range.lo))
    decreases |s| - from
  {
    ScanFromStep(s, from);
    if NextTag(s, from).Some? {
      var (tag, next) := NextTag(s, from).value;
      NextTagAt(s, from);
      var rest := ScanFrom(s, next);
      var tags := [tag] + rest;
      ScanFromGaps(s, next);
      if rest != [] {
        ScanFromTagsAt(s, next);
        assert rest[0] in rest;
      }
      forall i | 0 <= i < |tags| - 1
        ensures tags[i].range.hi <= tags[i + 1].range.lo
        ensures NoPairBetween(s, '{', tags[i].range.hi, tags[i + 1].range.lo)
      {
        assert tags[i + 1] == rest[i];
        if i > 0 {
          assert tags[i] == rest[i - 1];
        }
      }
    }
  }

  /**
    Where scanning stops: no `{{` is left, or the first one has no `}}`
    after it, or the content between them is empty.
   */
  predicate Stuck(s: string, at: nat) {
    match FindPair(s, '{', at)
    case None => true
    case Some(open) =>
      match FindPair(s, '}', open + 2)
      case None => true
      case Some(close) => close == open + 2
  }

  /** A round finds nothing exactly where scanning is stuck. */
  lemma NextTagStuck(s: string, at: nat)
    ensures NextTag(s, at).None? <==> Stuck(s, at)
  {
    match FindPair(s, '{', at)
    case None =>
    case Some(open) =>
      match FindPair(s, '}', open + 2)
      case None =>
      case Some(close) =>
        assert |s[open + 2..close]| == close - (open + 2);
  }

  /** Scanning keeps the tags it found when it stops: where the last tag ends (or at `from`), no further tag can be read. */
  lemma {:induction false} ScanFromStops(s: string, from: nat)
    ensures var tags := ScanFrom(s, from);
      Stuck(s, if tags == [] then from else tags[|tags| - 1].range.hi)
    decreases |s| - from
  {
    ScanFromStep(s, from);
    NextTagStuck(s, from);
    if NextTag(s, from).Some? {
      var (tag, next) := NextTag(s, from).value;
      NextTagAt(s, from);
      var rest := ScanFrom(s, next);
      ScanFromStops(s, next);
      var tags := [tag] + rest;
      if rest != [] {
        assert tags[|tags| - 1] == rest[|rest| - 1];
      }
    }
  }

  /** A template with no `{{` has no tags. */
  lemma ScanWithoutOpeners(s: string)
    requires NoPairBetween(s, '{', 0, |s|)
    ensures Scan(s) == []
  {
    assert FindPair(s, '{', 0).None?;
  }

  /** Text with no `{` yields no tag. */
  lemma ScanFromText(s: string, from: nat)
    requires from <= |s| && '{' !in s[from..]
    ensures ScanFrom(s, from) == []
  {
  }

  /** The first doubled `c` from `from` is at `at` when no `c` comes before it. */
  lemma FindPairAt(s: string, c: char, from: nat, at: nat)
    requires from <= at && PairAt(s, c, at)
    requires forall k :: from <= k < at ==> s[k] != c
    ensures FindPair(s, c, from) == Some(at)
  {
  }

  /** Where `a` with no `{` is followed by `{{`, the first `{{` is right after `a`. */
  lemma OpenAfter(s: string, from: nat, a: string)
    requires from + |a| + 2 <= |s| && s[from..from + |a| + 2] == a + "{{" && '{' !in a
    ensures FindPair(s, '{', from) == Some(from + |a|)
  {
    var piece := s[from..from + |a| + 2];
    forall k | from <= k < from + |a|
      ensures s[k] != '{'
    {
      assert s[k] == piece[k - from] == a[k - from];
    }
    assert s[from + |a|] == piece[|a|] && s[from + |a| + 1] == piece[|a| + 1];
    FindPairAt(s, '{', from, from + |a|);
  }

  /** Where `content` with no `}` is followed by `}}`, the first `}}` is right after `content`. */
  lemma CloseAfter(s: string, at: nat, content: string)
    requires at + |content| + 2 <= |s| && s[at..at + |content| + 2] == content + "}}" && '}' !in content
    ensures FindPair(s, '}', at) == Some(at + |content|)
  {
    var piece := s[at..at + |content| + 2];
    forall k | at <= k < at + |content|
      ensures s[k] != '}'
    {
      assert s[k] == piece[k - at] == content[k - at];
    }
    assert s[at + |content|] == piece[|content|] && s[at + |content| + 1] == piece[|content| + 1];
    FindPairAt(s, '}', at, at + |content|);
  }

  lemma PieceSlices(s: string, from: nat, a: string, content: string)
    requires from + |a| + |content| + 4 <= |s|
    requires s[from..from + |a| + |content| + 4] == a + "{{" + content + "}}"
    ensures s[from..from + |a| + 2] == a + "{{"
    ensures s[from + |a| + 2..from + |a| + 2 + |content| + 2] == content + "}}"
    ensures s[from + |a| + 2..from + |a| + 2 + |content|] == content
  {
    var open := from + |a|;
    var close := open + 2 + |content|;
    var whole := a + "{{" + content + "}}";
    assert forall j :: 0 <= j < |whole| ==> s[from + j] == whole[j];
    assert forall j :: 0 <= j < |a| ==> s[from + j] == a[j];
    assert s[open] == '{' && s[open + 1] == '{';
    assert forall j :: 0 <= j < |content| ==> s[open + 2 + j] == content[j];
    assert s[close] == '}' && s[close + 1] == '}';
    assert s[from..open + 2] == a + "{{";
    assert s[open + 2..close] == content;
    assert s[open + 2..close + 2] == content + "}}";
  }

  /**
    Scanning from `from`, where the text reads `a`, then `{{content}}`: with
    no `{` in `a`, no `}` in `content` and a content the classifier accepts,
    the first tag is that one and scanning goes on after it.
   */
  lemma ScanFromTag(s: string, from: nat, a: string, content: string, tag: Tag)
    requires from + |a| + |content| + 4 <= |s|
    requires s[from..from + |a| + |content| + 4] == a + "{{" + content + "}}"
    requires '{' !in a && '}' !in content
    requires TemplateInfo(content) == Some(TagInfo(tag.tagType, tag.name))
    requires tag.range == Range(from + |a|, from + |a| + |content| + 4)
    ensures ScanFrom(s, from) == [tag] + ScanFrom(s, tag.range.hi)
  {
    NextTagFound(s, from, a, content, tag);
    ScanFromStep(s, from);
  }

  /** The round from `from` over `a{{content}}` yields the tag of `content` and goes on after it. */
  lemma NextTagFound(s: string, from: nat, a: string, content: string, tag: Tag)
    requires from + |a| + |content| + 4 <= |s|
    requires s[from..from + |a| + |content| + 4] == a + "{{" + content + "}}"
    requires '{' !in a && '}' !in content
    requires TemplateInfo(content) == Some(TagInfo(tag.tagType, tag.name))
    requires tag.range == Range(from + |a|, from + |a| + |content| + 4)
    ensures NextTag(s, from) == Some((tag, tag.range.hi))
  {
    var open := from + |a|;
    var close := open + 2 + |content|;
    TagDelimiters(s, from, a, content);
    assert s[open + 2..close] == content;
    NextTagOf(s, from, open, close, tag);
  }

  /** A round that finds `{{` at `open` and `}}` at `close` yields the tag between them. */
  lemma NextTagOf(s: string, from: nat, open: nat, close: nat, tag: Tag)
    requires FindPair(s, '{', from) == Some(open) && FindPair(s, '}', open + 2) == Some(close)
    requires TemplateInfo(s[open + 2..close]) == Some(TagInfo(tag.tagType, tag.name))
    requires tag.range == Range(open, close + 2)
    ensures NextTag(s, from) == Some((tag, tag.range.hi))
  {
  }

  /** Where the text from `from` reads `a{{content}}`, the round finds exactly those delimiters. */
  lemma TagDelimiters(s: string, from: nat, a: string, content: string)
    requires from + |a| + |content| + 4 <= |s|
    requires s[from..from + |a| + |content| + 4] == a + "{{" + content + "}}"
    requires '{' !in a && '}' !in content
    ensures FindPair(s, '{', from) == Some(from + |a|)
    ensures FindPair(s, '}', from + |a| + 2) == Some(from + |a| + 2 + |content|)
    ensures s[from + |a| + 2..from + |a| + 2 + |content|] == content
  {
    PieceSlices(s, from, a, content);
    OpenAfter(s, from, a);
    CloseAfter(s, from + |a| + 2, content);
  }
}
