/**
  The scope tree `BoilerPlateTagScope`: the scanned tags nested into
  sections. A section `{{#k}}`/`{{!k}}` is open until a `{{/k}}` with the
  same name; every other tag is a leaf that ends at its own tag. The root
  scope spans the whole template.
 */
module ScopeTree {
  import opened Wrappers
  import opened Strings
  import opened Tags

  /**
    One node of the scope tree. The source's `key` is always the start tag's
    name and its `delimiter` is the opener's delimiter (nil, read as "", for
    every other node), so both are derived from `startTag` here. `endTag` is
    `None` for a section that was never closed.
   */
  datatype Scope = Scope(startTag: Tag, endTag: Option<Tag>, children: seq<Scope>)
  {
    /** The name looked up when this scope is rendered. */
    function Key(): string {
      startTag.name
    }

    /** `isPositive`: `{{!k}}` sections and comments are negative, everything else positive. */
    function IsPositive(): bool {
      match startTag.tagType
      case ScopeOpen(_, positive) => positive
      case Comment => false
      case _ => true
    }

    /** The separator placed between the renderings of an array's items. */
    function Delimiter(): string {
      match startTag.tagType
      case ScopeOpen(delimiter, _) => delimiter
      case _ => ""
    }
  }

  /** The fake start tag of the root: a positive opener named "" at the start of the range. */
  function RootStart(fullRange: Range): Tag {
    Tag(ScopeOpen("", true), Range(fullRange.lo, fullRange.lo), "")
  }

  /** The fake end tag of the root, at the end of the range. */
  function RootEnd(fullRange: Range): Tag {
    Tag(ScopeClose, Range(fullRange.hi, fullRange.hi), "")
  }

  // ---------------------------------------------------------------------
  // Reference definition: recursive descent over the tag list
  // ---------------------------------------------------------------------

  /** The children read by `ParseSeq`, the close tag that ended them (if any) and where reading stopped. */
  datatype Parsed = Parsed(children: seq<Scope>, close: Option<Tag>, next: nat)

  /**
    The children of a section named `key` whose content starts at tag `i`:
    leaves, and nested sections parsed the same way, up to a close tag
    named `key` met while this section is the innermost open one (a close
    tag inside a nested section belongs to that section's reading, and is
    dropped there if its name is not the nested section's). A close tag with
    another name is dropped. When no such close tag comes, the section runs
    to the end of the tags.
   */
  function ParseSeq(tags: seq<Tag>, i: nat, key: string): (p: Parsed)
    requires i <= |tags|
    ensures i <= p.next <= |tags|
    ensures p.close.None? ==> p.next == |tags|
    ensures p.close.Some? ==>
      i < p.next && p.close.value == tags[p.next - 1]
      && p.close.value.tagType == ScopeClose && p.close.value.name == key
    decreases |tags| - i
  {
    if i == |tags| then Parsed([], None, i)
    else
      var tag := tags[i];
      match tag.tagType
      case ScopeOpen(_, _) =>
        var sub := ParseSeq(tags, i + 1, tag.name);
        var rest := ParseSeq(tags, sub.next, key);
        Parsed([Scope(tag, sub.close, sub.children)] + rest.children, rest.close, rest.next)
      case ScopeClose =>
        if tag.name == key then Parsed([], Some(tag), i + 1)
        else ParseSeq(tags, i + 1, key)
      case _ =>
        var rest := ParseSeq(tags, i + 1, key);
        Parsed([Scope(tag, Some(tag), [])] + rest.children, rest.close, rest.next)
  }

  /**
    The scope tree of a template's tags: the root holds the top-level
    children; it ends at a top-level `{{/}}` when there is one (the tags
    after it are not part of the tree) and at the end of the range otherwise.
   */
  function ParseTree(tags: seq<Tag>, fullRange: Range): Scope {
    var p := ParseSeq(tags, 0, "");
    Scope(RootStart(fullRange), if p.close.Some? then p.close else Some(RootEnd(fullRange)), p.children)
  }

  // ---------------------------------------------------------------------
  // The builder's own semantics: one pass with a stack of open sections
  // ---------------------------------------------------------------------

  /** An open section while building: its start tag, its end tag so far and the children attached so far. */
  datatype Frame = Frame(startTag: Tag, endTag: Option<Tag>, children: seq<Scope>)

  /**
    The builder's state: the open sections from the root to `currentScope`,
    or, once a top-level close has ended the root, the finished root
    (`currentScope` is nil then and no later tag reaches the tree).
   */
  datatype BuildState = Open(stack: seq<Frame>) | Detached(root: Scope)

  predicate Live(st: BuildState) {
    st.Detached? || |st.stack| > 0
  }

  /** Add `s` as the last child of the innermost open section. */
  function Attach(stack: seq<Frame>, s: Scope): (r: seq<Frame>)
    requires |stack| > 0
    ensures |r| == |stack|
  {
    var top := stack[|stack| - 1];
    stack[..|stack| - 1] + [top.(children := top.children + [s])]
  }

  /** The innermost section has closed as `done`; `below` are the sections still open around it. */
  function Close(below: seq<Frame>, done: Scope): (r: BuildState)
    ensures Live(r)
  {
    if below == [] then Detached(done) else Open(Attach(below, done))
  }

  /** One iteration of the builder's loop over the tags. */
  function Step(st: BuildState, tag: Tag): (r: BuildState)
    requires Live(st)
    ensures Live(r)
  {
    match st
    case Detached(_) => st
    case Open(stack) =>
      var top := stack[|stack| - 1];
      match tag.tagType
      case ScopeOpen(_, _) => Open(stack + [Frame(tag, None, [])])
      case ScopeClose =>
        if tag.name == top.startTag.name then
          Close(stack[..|stack| - 1], Scope(top.startTag, Some(tag), top.children))
        else st
      case _ => Open(Attach(stack, Scope(tag, Some(tag), [])))
  }

  /** The builder's loop from tag `i` on. */
  function Run(tags: seq<Tag>, i: nat, st: BuildState): (r: BuildState)
    requires i <= |tags| && Live(st)
    ensures Live(r)
    decreases |tags| - i
  {
    if i == |tags| then st else Run(tags, i + 1, Step(st, tags[i]))
  }

  /** The sections still open at the end stay in their parents, unclosed; the root keeps its own end tag. */
  function Unwind(stack: seq<Frame>): Scope
    requires |stack| > 0
    decreases |stack|
  {
    var top := stack[|stack| - 1];
    var done := Scope(top.startTag, top.endTag, top.children);
    if |stack| == 1 then done else Unwind(Attach(stack[..|stack| - 1], done))
  }

  function Finish(st: BuildState): Scope
    requires Live(st)
  {
    match st
    case Detached(root) => root
    case Open(stack) => Unwind(stack)
  }

  /** The root before any tag: the fake start tag, and the fake end tag until a top-level close replaces it. */
  function RootFrame(fullRange: Range): Frame {
    Frame(RootStart(fullRange), Some(RootEnd(fullRange)), [])
  }

  /** What the builder produces from a tag list. */
  function Build(tags: seq<Tag>, fullRange: Range): Scope {
    Finish(Run(tags, 0, Open([RootFrame(fullRange)])))
  }

  /** Once the root has closed, no later tag changes anything. */
  lemma {:induction false} RunDetached(tags: seq<Tag>, i: nat, root: Scope)
    requires i <= |tags|
    ensures Run(tags, i, Detached(root)) == Detached(root)
    decreases |tags| - i
  {
    if i < |tags| {
      RunDetached(tags, i + 1, root);
    }
  }

  lemma AttachAppend(st: seq<Frame>, f: Frame, s: Scope)
    ensures Attach(st + [f], s) == st + [f.(children := f.children + [s])]
  {
    assert (st + [f])[..|st|] == st;
  }

  /**
    What the builder ends with when it reaches tag `i` with `f` as the
    innermost open section, as `ParseSeq` predicts: `f` receives the
    children parsed from `i`; it is either left open to the end or closed by
    the close tag found, after which the builder carries on around it.
   */
  function Predicted(tags: seq<Tag>, i: nat, st: seq<Frame>, f: Frame): Scope
    requires i <= |tags|
  {
    var p := ParseSeq(tags, i, f.startTag.name);
    if p.close.None? then Unwind(st + [f.(children := f.children + p.children)])
    else Finish(Run(tags, p.next, Close(st, Scope(f.startTag, p.close, f.children + p.children))))
  }

  /** The builder does what the recursive descent predicts. */
  lemma {:induction false} RunParse(tags: seq<Tag>, i: nat, st: seq<Frame>, f: Frame)
    requires i <= |tags|
    ensures Finish(Run(tags, i, Open(st + [f]))) == Predicted(tags, i, st, f)
    decreases |tags| - i, 2
  {
    if i == |tags| {
      var p := ParseSeq(tags, i, f.startTag.name);
      assert f.(children := f.children + p.children) == f;
    } else {
      match tags[i].tagType
      case ScopeOpen(_, _) => RunParseOpen(tags, i, st, f);
      case ScopeClose => RunParseClose(tags, i, st, f);
      case _ => RunParseLeaf(tags, i, st, f);
    }
  }

  /** The close case of `RunParse`: a close tag with the section's name ends it; any other is dropped. */
  lemma {:induction false} RunParseClose(tags: seq<Tag>, i: nat, st: seq<Frame>, f: Frame)
    requires i < |tags| && tags[i].tagType.ScopeClose?
    ensures Finish(Run(tags, i, Open(st + [f]))) == Predicted(tags, i, st, f)
    decreases |tags| - i, 0
  {
    var key := f.startTag.name;
    var p := ParseSeq(tags, i, key);
    var tag := tags[i];
    assert Run(tags, i, Open(st + [f])) == Run(tags, i + 1, Step(Open(st + [f]), tag));
    if tag.name == key {
      assert p == Parsed([], Some(tag), i + 1);
      assert f.children + p.children == f.children;
      assert (st + [f])[..|st|] == st;
    } else {
      assert Step(Open(st + [f]), tag) == Open(st + [f]);
      assert p == ParseSeq(tags, i + 1, key);
      RunParse(tags, i + 1, st, f);
    }
  }

  /** The leaf case of `RunParse`: the leaf is attached and the builder goes on with the same section. */
  lemma {:induction false} RunParseLeaf(tags: seq<Tag>, i: nat, st: seq<Frame>, f: Frame)
    requires i < |tags| && !tags[i].tagType.ScopeOpen? && !tags[i].tagType.ScopeClose?
    ensures Finish(Run(tags, i, Open(st + [f]))) == Predicted(tags, i, st, f)
    decreases |tags| - i, 0
  {
    var key := f.startTag.name;
    var p := ParseSeq(tags, i, key);
    var tag := tags[i];
    var leaf := Scope(tag, Some(tag), []);
    var f1 := f.(children := f.children + [leaf]);
    var rest := ParseSeq(tags, i + 1, key);
    assert p == Parsed([leaf] + rest.children, rest.close, rest.next);
    assert Run(tags, i, Open(st + [f])) == Run(tags, i + 1, Step(Open(st + [f]), tag));
    AttachAppend(st, f, leaf);
    assert Step(Open(st + [f]), tag) == Open(st + [f1]);
    RunParse(tags, i + 1, st, f1);
    assert f1.children + rest.children == f.children + p.children;
  }

  /** The opener case of `RunParse`: the nested section is built first, then the builder goes on around it. */
  lemma {:induction false} RunParseOpen(tags: seq<Tag>, i: nat, st: seq<Frame>, f: Frame)
    requires i < |tags| && tags[i].tagType.ScopeOpen?
    ensures Finish(Run(tags, i, Open(st + [f]))) == Predicted(tags, i, st, f)
    decreases |tags| - i, 1
  {
    if ParseSeq(tags, i + 1, tags[i].name).close.None? {
      RunParseOpenUnclosed(tags, i, st, f);
    } else {
      RunParseOpenClosed(tags, i, st, f);
    }
  }

  /** A nested section that is never closed: it and its parent stay open to the end. */
  lemma {:induction false} RunParseOpenUnclosed(tags: seq<Tag>, i: nat, st: seq<Frame>, f: Frame)
    requires i < |tags| && tags[i].tagType.ScopeOpen?
    requires ParseSeq(tags, i + 1, tags[i].name).close.None?
    ensures Finish(Run(tags, i, Open(st + [f]))) == Predicted(tags, i, st, f)
    decreases |tags| - i, 0
  {
    var key := f.startTag.name;
    var p := ParseSeq(tags, i, key);
    var tag := tags[i];
    var g := Frame(tag, None, []);
    var sub := ParseSeq(tags, i + 1, tag.name);
    var child := Scope(tag, sub.close, sub.children);
    var f1 := f.(children := f.children + [child]);
    var rest := ParseSeq(tags, sub.next, key);
    assert Run(tags, i, Open(st + [f])) == Run(tags, i + 1, Open((st + [f]) + [g]));
    RunParse(tags, i + 1, st + [f], g);
    AttachAppend(st, f, child);
    assert rest == Parsed([], None, |tags|);
    assert g.children + sub.children == sub.children;
    UnwindOpenChild(st + [f], g.(children := g.children + sub.children), child);
    assert p.children == [child];
    assert f.(children := f.children + p.children) == f1;
  }

  /** A nested section that is closed: the builder goes on in its parent with the section attached. */
  lemma {:induction false} RunParseOpenClosed(tags: seq<Tag>, i: nat, st: seq<Frame>, f: Frame)
    requires i < |tags| && tags[i].tagType.ScopeOpen?
    requires ParseSeq(tags, i + 1, tags[i].name).close.Some?
    ensures Finish(Run(tags, i, Open(st + [f]))) == Predicted(tags, i, st, f)
    decreases |tags| - i, 0
  {
    var key := f.startTag.name;
    var p := ParseSeq(tags, i, key);
    var tag := tags[i];
    var g := Frame(tag, None, []);
    var sub := ParseSeq(tags, i + 1, tag.name);
    var child := Scope(tag, sub.close, sub.children);
    var f1 := f.(children := f.children + [child]);
    var rest := ParseSeq(tags, sub.next, key);
    assert Run(tags, i, Open(st + [f])) == Run(tags, i + 1, Open((st + [f]) + [g]));
    RunParse(tags, i + 1, st + [f], g);
    AttachAppend(st, f, child);
    assert f1.children + rest.children == f.children + p.children;
    assert g.children + sub.children == sub.children;
    assert Close(st + [f], child) == Open(st + [f1]);
    RunParse(tags, sub.next, st, f1);
    assert f1.(children := f1.children + rest.children) == f.(children := f.children + p.children);
    assert Scope(f1.startTag, rest.close, f1.children + rest.children)
        == Scope(f.startTag, p.close, f.children + p.children);
  }

  /** Unwinding a stack first closes its innermost section into its parent. */
  lemma UnwindOpenChild(st: seq<Frame>, g: Frame, child: Scope)
    requires |st| > 0 && child == Scope(g.startTag, g.endTag, g.children)
    ensures Unwind(st + [g]) == Unwind(Attach(st, child))
  {
    assert (st + [g])[..|st|] == st;
  }

  /** The one-pass builder and the recursive-descent reference build the same tree. */
  lemma BuildMatchesParse(tags: seq<Tag>, fullRange: Range)
    ensures Build(tags, fullRange) == ParseTree(tags, fullRange)
  {
    var p := ParseSeq(tags, 0, "");
    RunParse(tags, 0, [], RootFrame(fullRange));
    assert [] + [RootFrame(fullRange)] == [RootFrame(fullRange)];
    if p.close.Some? {
      RunDetached(tags, p.next, Scope(RootStart(fullRange), p.close, [] + p.children));
    }
  }

  /**
    `BoilerPlateTagScope.init(tags:fullRange:)`: walk the tags once, moving
    the current scope down at each opener and back up at the close tag that
    matches it, then leave whatever is still open unclosed.
   */
  method BuildScopeTree(tags: seq<Tag>, fullRange: Range) returns (root: Scope)
    ensures root == ParseTree(tags, fullRange)
  {
    var stack := [RootFrame(fullRange)];
    var closedRoot: Option<Scope> := None;
    for i := 0 to |tags|
      invariant |stack| > 0
      invariant var st := if closedRoot.Some? then Detached(closedRoot.value) else Open(stack);
        Run(tags, i, st) == Run(tags, 0, Open([RootFrame(fullRange)]))
    {
      if closedRoot.None? {
        var tag := tags[i];
        var current := stack[|stack| - 1];
        match tag.tagType {
          case ScopeOpen(_, _) =>
            stack := stack + [Frame(tag, None, [])];
          case ScopeClose =>
            if tag.name == current.startTag.name {
              var done := Scope(current.startTag, Some(tag), current.children);
              if |stack| == 1 {
                closedRoot := Some(done);
              } else {
                stack := Attach(stack[..|stack| - 1], done);
              }
            }
          case _ =>
            stack := Attach(stack, Scope(tag, Some(tag), []));
        }
      }
    }
    if closedRoot.Some? {
      root := closedRoot.value;
    } else {
      ghost var atEnd := stack;
      while |stack| > 1
        invariant |stack| > 0
        invariant Unwind(stack) == Unwind(atEnd)
        decreases |stack|
      {
        var current := stack[|stack| - 1];
        stack := Attach(stack[..|stack| - 1], Scope(current.startTag, current.endTag, current.children));
      }
      root := Scope(stack[0].startTag, stack[0].endTag, stack[0].children);
    }
    BuildMatchesParse(tags, fullRange);
  }

  // ---------------------------------------------------------------------
  // Properties of the tree
  // ---------------------------------------------------------------------

  /**
    The shape every built scope has: a leaf ends at its own start tag and
    has no children; a section is unclosed or ends at a close tag with its
    own name, and its children have the same shape. No node starts with a
    close tag.
   */
  predicate WellNested(s: Scope)
    decreases s
  {
    match s.startTag.tagType
    case ScopeOpen(_, _) =>
      && (s.endTag.None? || (s.endTag.value.tagType == ScopeClose && s.endTag.value.name == s.Key()))
      && forall c :: c in s.children ==> WellNested(c)
    case ScopeClose => false
    case _ => s.endTag == Some(s.startTag) && s.children == []
  }

  lemma {:induction false} ParseSeqWellNested(tags: seq<Tag>, i: nat, key: string)
    requires i <= |tags|
    ensures forall c :: c in ParseSeq(tags, i, key).children ==> WellNested(c)
    decreases |tags| - i
  {
    if i < |tags| {
      var tag := tags[i];
      match tag.tagType
      case ScopeOpen(_, _) =>
        var sub := ParseSeq(tags, i + 1, tag.name);
        ParseSeqWellNested(tags, i + 1, tag.name);
        ParseSeqWellNested(tags, sub.next, key);
      case ScopeClose =>
        if tag.name != key {
          ParseSeqWellNested(tags, i + 1, key);
        }
      case _ =>
        ParseSeqWellNested(tags, i + 1, key);
    }
  }

  /** The built root always has the well-nested shape, and always has an end tag. */
  lemma ParseTreeWellNested(tags: seq<Tag>, fullRange: Range)
    ensures WellNested(ParseTree(tags, fullRange))
    ensures ParseTree(tags, fullRange).endTag.Some?
  {
    ParseSeqWellNested(tags, 0, "");
  }

  /** The start tags of a forest, each node before its children (preorder). */
  function Starts(forest: seq<Scope>): seq<Tag>
    decreases forest
  {
    if forest == [] then []
    else [forest[0].startTag] + Starts(forest[0].children) + Starts(forest[1..])
  }

  /** The tags of `tags[i..j]` that are not close tags, in order. */
  function NonCloses(tags: seq<Tag>, i: nat, j: nat): seq<Tag>
    requires i <= j <= |tags|
    decreases j - i
  {
    if i == j then []
    else (if tags[i].tagType == ScopeClose then [] else [tags[i]]) + NonCloses(tags, i + 1, j)
  }

  lemma {:induction false} NonClosesSplit(tags: seq<Tag>, i: nat, j: nat, k: nat)
    requires i <= j <= k <= |tags|
    ensures NonCloses(tags, i, k) == NonCloses(tags, i, j) + NonCloses(tags, j, k)
    decreases j - i
  {
    if i < j {
      NonClosesSplit(tags, i + 1, j, k);
      var head := if tags[i].tagType == ScopeClose then [] else [tags[i]];
      assert NonCloses(tags, i, k) == head + NonCloses(tags, i + 1, k);
      assert NonCloses(tags, i, j) == head + NonCloses(tags, i + 1, j);
    } else {
      assert NonCloses(tags, i, j) == [];
    }
  }

  lemma StartsCons(c: Scope, forest: seq<Scope>)
    ensures Starts([c] + forest) == [c.startTag] + Starts(c.children) + Starts(forest)
  {
    assert ([c] + forest)[1..] == forest;
  }

  /**
    No tag is lost or reordered: the start tags of the parsed children, in
    preorder, are exactly the non-close tags read, in their original order.
   */
  lemma {:induction false} ParseSeqKeepsTags(tags: seq<Tag>, i: nat, key: string)
    requires i <= |tags|
    ensures var p := ParseSeq(tags, i, key);
      Starts(p.children) == NonCloses(tags, i, p.next)
    decreases |tags| - i, 1
  {
    if i < |tags| {
      var p := ParseSeq(tags, i, key);
      var tag := tags[i];
      match tag.tagType
      case ScopeOpen(_, _) =>
        ParseSeqKeepsTagsOpen(tags, i, key);
      case ScopeClose =>
        if tag.name != key {
          ParseSeqKeepsTags(tags, i + 1, key);
        }
      case _ =>
        var rest := ParseSeq(tags, i + 1, key);
        ParseSeqKeepsTags(tags, i + 1, key);
        StartsCons(Scope(tag, Some(tag), []), rest.children);
        assert NonCloses(tags, i, p.next) == [tag] + NonCloses(tags, i + 1, p.next);
    }
  }

  /** The opener case of `ParseSeqKeepsTags`: the section's own tags, then the ones after it. */
  lemma {:induction false} ParseSeqKeepsTagsOpen(tags: seq<Tag>, i: nat, key: string)
    requires i < |tags| && tags[i].tagType.ScopeOpen?
    ensures var p := ParseSeq(tags, i, key);
      Starts(p.children) == NonCloses(tags, i, p.next)
    decreases |tags| - i, 0
  {
    var p := ParseSeq(tags, i, key);
    var tag := tags[i];
    var sub := ParseSeq(tags, i + 1, tag.name);
    var rest := ParseSeq(tags, sub.next, key);
    var section := Scope(tag, sub.close, sub.children);
    assert p == Parsed([section] + rest.children, rest.close, rest.next);
    ParseSeqKeepsTags(tags, i + 1, tag.name);
    ParseSeqKeepsTags(tags, sub.next, key);
    NonClosesSplit(tags, i + 1, sub.next, rest.next);
    StartsCons(section, rest.children);
    calc {
      Starts(p.children);
      [tag] + Starts(sub.children) + Starts(rest.children);
      [tag] + NonCloses(tags, i + 1, sub.next) + NonCloses(tags, sub.next, rest.next);
      [tag] + NonCloses(tags, i + 1, rest.next);
    }
    assert NonCloses(tags, i, rest.next) == [tag] + NonCloses(tags, i + 1, rest.next);
  }

  /**
    The tree keeps every non-close tag up to where the root ends: all of
    them when the root is not closed early, and the ones before the
    top-level `{{/}}` when it is.
   */
  lemma ParseTreeKeepsTags(tags: seq<Tag>, fullRange: Range)
    ensures var root := ParseTree(tags, fullRange);
      || (root.endTag == Some(RootEnd(fullRange)) && Starts(root.children) == NonCloses(tags, 0, |tags|))
      || (exists n :: 0 < n <= |tags| && root.endTag == Some(tags[n - 1])
            && Starts(root.children) == NonCloses(tags, 0, n))
  {
    ParseSeqKeepsTags(tags, 0, "");
    var p := ParseSeq(tags, 0, "");
    if p.close.Some? {
      assert tags[p.next - 1] == p.close.value;
    }
  }

  // ---------------------------------------------------------------------
  // Where the scopes lie in the template text
  // ---------------------------------------------------------------------

  /**
    Tags as a scan of a text of length `n` finds them: each spans at least
    one character within the text, and each ends at or before the next
    one starts.
   */
  predicate InOrder(tags: seq<Tag>, n: nat) {
    && (forall i :: 0 <= i < |tags| ==> tags[i].range.lo < tags[i].range.hi <= n)
    && (forall i :: 0 <= i < |tags| - 1 ==> tags[i].range.hi <= tags[i + 1].range.lo)
  }

  /**
    Children laid out left to right after offset `from`: the first starts
    at or after `from`, each one but the last is closed and ends at or
    before the next one starts, and when there is an end tag the last
    child (if closed) ends at or before it, or, without children, `from`
    lies at or before it.
   */
  predicate Spaced(children: seq<Scope>, from: nat, end: Option<Tag>) {
    && (children != [] ==> from <= children[0].startTag.range.lo)
    && (forall k :: 0 <= k < |children| - 1 ==>
          children[k].endTag.Some? && children[k].endTag.value.range.hi <= children[k + 1].startTag.range.lo)
    && (end.Some? && children == [] ==> from <= end.value.range.lo)
    && (end.Some? && children != [] && children[|children| - 1].endTag.Some? ==>
          children[|children| - 1].endTag.value.range.hi <= end.value.range.lo)
  }

  /**
    A scope laid out in a text of length `n`: its tags lie within the text,
    its end tag (if any) does not start before its start tag, a leaf's tag
    is not empty, a section's children lie between its start tag and its
    end tag in order, and so on all the way down.
   */
  predicate Laid(s: Scope, n: nat)
    decreases s
  {
    && s.startTag.range.lo <= s.startTag.range.hi <= n
    && (!s.startTag.tagType.ScopeOpen? ==> s.startTag.range.lo < s.startTag.range.hi)
    && (s.endTag.Some? ==> s.startTag.range.lo <= s.endTag.value.range.lo <= s.endTag.value.range.hi <= n)
    && (s.startTag.tagType.ScopeOpen? ==> Spaced(s.children, s.startTag.range.hi, s.endTag))
    && forall c :: c in s.children ==> Laid(c, n)
  }

  /** A closed scope in front of children spaced after its end stays spaced. */
  lemma SpacedCons(c: Scope, rest: seq<Scope>, from: nat, end: Option<Tag>)
    requires from <= c.startTag.range.lo && c.endTag.Some?
    requires Spaced(rest, c.endTag.value.range.hi, end)
    ensures Spaced([c] + rest, from, end)
  {
    var all := [c] + rest;
    forall k | 0 <= k < |all| - 1
      ensures all[k].endTag.Some? && all[k].endTag.value.range.hi <= all[k + 1].startTag.range.lo
    {
      assert all[k + 1] == rest[k];
      if k > 0 {
        assert all[k] == rest[k - 1];
      }
    }
    if rest != [] {
      assert all[|all| - 1] == rest[|rest| - 1];
    }
  }

  /** Children parsed after offset `from` lie in order, laid out in the text, and before the close tag that ended them. */
  predicate ParsedLaid(p: Parsed, from: nat, n: nat) {
    && Spaced(p.children, from, p.close)
    && (forall c :: c in p.children ==> Laid(c, n))
    && (p.close.Some? ==> from <= p.close.value.range.lo)
  }

  /** The children parsed from tag `i` on, after offset `from`, are laid out in order. */
  lemma {:induction false} ParseSeqLaid(tags: seq<Tag>, i: nat, key: string, from: nat, n: nat)
    requires InOrder(tags, n) && i <= |tags|
    requires i < |tags| ==> from <= tags[i].range.lo
    ensures ParsedLaid(ParseSeq(tags, i, key), from, n)
    decreases |tags| - i, 1
  {
    if i < |tags| {
      match tags[i].tagType
      case ScopeOpen(_, _) =>
        ParseSeqLaidOpen(tags, i, key, from, n);
      case ScopeClose =>
        if tags[i].name != key {
          assert i + 1 < |tags| ==> tags[i].range.hi <= tags[i + 1].range.lo;
          ParseSeqLaid(tags, i + 1, key, from, n);
        }
      case _ =>
        ParseSeqLaidLeaf(tags, i, key, from, n);
    }
  }

  /** The leaf case of `ParseSeqLaid`: the leaf lies before the children that follow it. */
  lemma {:induction false} ParseSeqLaidLeaf(tags: seq<Tag>, i: nat, key: string, from: nat, n: nat)
    requires InOrder(tags, n) && i < |tags|
    requires !tags[i].tagType.ScopeOpen? && !tags[i].tagType.ScopeClose?
    requires from <= tags[i].range.lo
    ensures ParsedLaid(ParseSeq(tags, i, key), from, n)
    decreases |tags| - i, 0
  {
    var tag := tags[i];
    assert tag.range.lo < tag.range.hi <= n;
    assert i + 1 < |tags| ==> tag.range.hi <= tags[i + 1].range.lo;
    var leaf := Scope(tag, Some(tag), []);
    var rest := ParseSeq(tags, i + 1, key);
    assert ParseSeq(tags, i, key) == Parsed([leaf] + rest.children, rest.close, rest.next);
    ParseSeqLaid(tags, i + 1, key, tag.range.hi, n);
    SpacedCons(leaf, rest.children, from, rest.close);
    assert Laid(leaf, n);
  }

  /** The opener case of `ParseSeqLaid`: the section lies before the children that follow it. */
  lemma {:induction false} ParseSeqLaidOpen(tags: seq<Tag>, i: nat, key: string, from: nat, n: nat)
    requires InOrder(tags, n) && i < |tags| && tags[i].tagType.ScopeOpen?
    requires from <= tags[i].range.lo
    ensures ParsedLaid(ParseSeq(tags, i, key), from, n)
    decreases |tags| - i, 0
  {
    var tag := tags[i];
    assert tag.range.lo < tag.range.hi <= n;
    assert i + 1 < |tags| ==> tag.range.hi <= tags[i + 1].range.lo;
    var sub := ParseSeq(tags, i + 1, tag.name);
    var section := Scope(tag, sub.close, sub.children);
    var rest := ParseSeq(tags, sub.next, key);
    assert ParseSeq(tags, i, key) == Parsed([section] + rest.children, rest.close, rest.next);
    ParseSeqLaid(tags, i + 1, tag.name, tag.range.hi, n);
    if sub.close.Some? {
      var close := tags[sub.next - 1];
      assert close.range.lo < close.range.hi <= n;
      assert sub.next < |tags| ==> close.range.hi <= tags[sub.next].range.lo;
      SectionLaid(tag, sub, n);
      ParseSeqLaid(tags, sub.next, key, close.range.hi, n);
      SpacedCons(section, rest.children, from, rest.close);
    } else {
      SectionLaid(tag, sub, n);
      assert rest == Parsed([], None, |tags|);
      assert [section] + rest.children == [section];
    }
  }

  /** A section made of an opener and the children parsed after it is laid out. */
  lemma SectionLaid(tag: Tag, sub: Parsed, n: nat)
    requires tag.tagType.ScopeOpen? && tag.range.lo <= tag.range.hi <= n
    requires ParsedLaid(sub, tag.range.hi, n)
    requires sub.close.Some? ==> sub.close.value.range.lo <= sub.close.value.range.hi <= n
    ensures Laid(Scope(tag, sub.close, sub.children), n)
  {
  }

  /** Every scope of a tree built from tags in order lies within the text, children between their parent's tags. */
  lemma ParseTreeLaid(tags: seq<Tag>, n: nat)
    requires InOrder(tags, n)
    ensures Laid(ParseTree(tags, Range(0, n)), n)
  {
    var p := ParseSeq(tags, 0, "");
    ParseSeqLaid(tags, 0, "", 0, n);
    assert Spaced(p.children, 0, p.close);
    if p.close.Some? {
      assert tags[p.next - 1].range.hi <= n;
    } else if p.children != [] {
      assert p.children[|p.children| - 1] in p.children;
    }
  }

  /**
    A scope built from a tag is negative exactly when the tag's text starts
    with `!` or `//`.
   */
  lemma IsPositiveOfContent(content: string, range: Range, children: seq<Scope>, endTag: Option<Tag>)
    requires TemplateInfo(content).Some?
    ensures var info := TemplateInfo(content).value;
      var s := Scope(Tag(info.tagType, range, info.name), endTag, children);
      s.IsPositive() <==> !(content[0] == '!' || HasPrefix(content, "//"))
  {
  }
}
