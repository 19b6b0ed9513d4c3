/**
  What whole templates render to: text without tags, a single tag of each
  kind, a single section, partials from a library, and the examples the
  library's own tests use. Each follows from the scanner, the scope-tree
  builder and the renderer together.
 */
module Scenarios {
  import opened Wrappers
  import opened Strings
  import opened Tags
  import opened Scanner
  import opened ScopeTree
  import opened Items
  import opened Rendering

  /** A template without tags renders to itself, whatever the substitutions. */
  lemma TextRendersItself(fuel: nat, lib: Option<map<string, string>>, t: string, d: map<string, Item>, chain: seq<Item>)
    requires Scan(t) == []
    ensures RenderScope(fuel, lib, t, RootScope(t), Dict(d), chain) == Rendered(t)
  {
    var root := RootScope(t);
    assert root == Scope(RootStart(Range(0, |t|)), Some(RootEnd(Range(0, |t|))), []);
    assert t[0..|t|] == t;
  }

  /** A template with no `{` has no tags. */
  lemma PlainHasNoTags(t: string)
    requires '{' !in t
    ensures Scan(t) == []
  {
    ScanFromText(t, 0);
  }

  /** The tag `{{content}}` placed after `a`, as the scanner reports it. */
  function TagAfter(a: string, content: string): Tag
    requires TemplateInfo(content).Some?
  {
    var info := TemplateInfo(content).value;
    Tag(info.tagType, Range(|a|, |a| + |content| + 4), info.name)
  }

  /** `a{{content}}b` with plain text around the tag holds that one tag. */
  lemma ScanOneTag(t: string, a: string, content: string, b: string)
    requires t == a + "{{" + content + "}}" + b
    requires '{' !in a && '{' !in b && '}' !in content && TemplateInfo(content).Some?
    ensures Scan(t) == [TagAfter(a, content)]
  {
    var next := |a| + |content| + 4;
    assert t[0..next] == a + "{{" + content + "}}";
    ScanFromTag(t, 0, a, content, TagAfter(a, content));
    assert t[next..] == b;
    ScanFromText(t, next);
  }

  /** Text made of `a{{c1}}`, then `body{{c2}}`, then `b` holds the two tags `tag1` and `tag2`. */
  lemma ScanTwoTags(a: string, c1: string, body: string, c2: string, b: string, tag1: Tag, tag2: Tag)
    requires '{' !in a && '{' !in body && '{' !in b && '}' !in c1 && '}' !in c2
    requires TemplateInfo(c1) == Some(TagInfo(tag1.tagType, tag1.name))
    requires TemplateInfo(c2) == Some(TagInfo(tag2.tagType, tag2.name))
    requires tag1.range == Range(|a|, |a| + |c1| + 4)
    requires tag2.range == Range(tag1.range.hi + |body|, tag1.range.hi + |body| + |c2| + 4)
    ensures Scan((a + "{{" + c1 + "}}") + (body + "{{" + c2 + "}}") + b) == [tag1, tag2]
  {
    var p1 := a + "{{" + c1 + "}}";
    var p2 := body + "{{" + c2 + "}}";
    var t := p1 + p2 + b;
    ThreeSlices(p1, p2, b);
    assert |p1| == tag1.range.hi && |p1| + |p2| == tag2.range.hi;
    ScanFromText(t, tag2.range.hi);
    ScanFromTag(t, tag1.range.hi, body, c2, tag2);
    ScanFromTag(t, 0, a, c1, tag1);
  }

  /** The scope tree of `a{{content}}b` for a leaf tag: the root with the tag as its one child. */
  lemma OneLeafTree(a: string, content: string, b: string)
    requires '{' !in a && '{' !in b && '}' !in content && TemplateInfo(content).Some?
    requires !TemplateInfo(content).value.tagType.ScopeOpen? && !TemplateInfo(content).value.tagType.ScopeClose?
    ensures var t := a + "{{" + content + "}}" + b;
      var tag := TagAfter(a, content);
      RootScope(t) == Scope(RootStart(Range(0, |t|)), Some(RootEnd(Range(0, |t|))), [Scope(tag, Some(tag), [])])
  {
    var tag := TagAfter(a, content);
    ScanOneTag(a + "{{" + content + "}}" + b, a, content, b);
    var tags := [tag];
    assert ParseSeq(tags, 1, "") == Parsed([], None, 1);
    assert ParseSeq(tags, 0, "") == Parsed([Scope(tag, Some(tag), [])], None, 1);
  }

  /**
    A template with one leaf tag renders as the text before it, the tag's
    replacement, and the text after it.
   */
  lemma OneLeaf(fuel: nat, lib: Option<map<string, string>>, a: string, content: string, b: string,
                d: map<string, Item>, chain: seq<Item>)
    requires '{' !in a && '{' !in b && '}' !in content && TemplateInfo(content).Some?
    requires !TemplateInfo(content).value.tagType.ScopeOpen? && !TemplateInfo(content).value.tagType.ScopeClose?
    ensures var t := a + "{{" + content + "}}" + b;
      var root := RootScope(t);
      && root.children == [Scope(TagAfter(a, content), Some(TagAfter(a, content)), [])]
      && RenderScope(fuel, lib, t, root, Dict(d), chain)
         == Prepend(a, Then(Replacement(fuel, lib, t, root, Dict(d), chain, 0), Rendered(b)))
  {
    var t := a + "{{" + content + "}}" + b;
    var tag := TagAfter(a, content);
    OneLeafTree(a, content, b);
    assert t[..|a|] == a;
    assert t[|a| + |content| + 4..] == b;
    LeafRootRenders(fuel, lib, t, RootScope(t), d, chain, tag);
  }

  /** A root whose one child is a leaf renders as the text before the leaf, its replacement, then the text after it. */
  lemma LeafRootRenders(fuel: nat, lib: Option<map<string, string>>, t: string, root: Scope,
                        d: map<string, Item>, chain: seq<Item>, tag: Tag)
    requires tag.range.lo <= tag.range.hi <= |t|
    requires root == Scope(RootStart(Range(0, |t|)), Some(RootEnd(Range(0, |t|))), [Scope(tag, Some(tag), [])])
    ensures RenderScope(fuel, lib, t, root, Dict(d), chain)
         == Prepend(t[..tag.range.lo], Then(Replacement(fuel, lib, t, root, Dict(d), chain, 0), Rendered(t[tag.range.hi..])))
  {
    assert t[tag.range.hi..|t|] == t[tag.range.hi..];
    assert RenderChildren(fuel, lib, t, root, Dict(d), chain, 1, tag.range.hi) == Rendered(t[tag.range.hi..]);
    assert Slice(t, 0, tag.range.lo) == Rendered(t[..tag.range.lo]);
  }

  /** A leaf scope: a tag that is its own end tag and holds nothing. */
  predicate IsLeaf(child: Scope) {
    child.endTag == Some(child.startTag) && child.children == [] && child.startTag.range.lo < child.startTag.range.hi
  }

  /** An optional text as an outcome: the text rendered, or a trap when there is none. */
  function TrapOr(o: Option<string>): Outcome {
    if o.Some? then Rendered(o.value) else Trap
  }

  /** Texts run together, or nothing when one of them is missing. */
  function Concat(parts: seq<Option<string>>): Option<string>
    decreases |parts|
  {
    if parts == [] then Some("")
    else if parts[0].None? then None
    else
      match Concat(parts[1..])
      case None => None
      case Some(rest) => Some(parts[0].value + rest)
  }

  /** Running texts together misses exactly when one of them is missing, and otherwise joins them with "". */
  lemma {:induction false} ConcatJoin(parts: seq<Option<string>>)
    ensures Concat(parts).None? <==> exists i :: 0 <= i < |parts| && parts[i].None?
    ensures Concat(parts).Some? ==>
      Concat(parts).value == Join(seq(|parts|, i requires 0 <= i < |parts| => parts[i].value), "")
    decreases |parts|
  {
    if parts != [] {
      ConcatJoin(parts[1..]);
      if parts[0].Some? && Concat(parts[1..]).Some? {
        var texts := seq(|parts|, i requires 0 <= i < |parts| => parts[i].value);
        var rest := seq(|parts| - 1, i requires 0 <= i < |parts| - 1 => parts[1..][i].value);
        assert texts[1..] == rest;
        if |parts| == 1 {
          assert parts[0].value + "" == parts[0].value;
        } else {
          assert parts[0].value + Join(rest, "") == parts[0].value + "" + Join(rest, "");
        }
      } else if parts[0].Some? {
        var i :| 0 <= i < |parts[1..]| && parts[1..][i].None?;
        assert parts[i + 1].None?;
      }
    }
  }

  /** `joined()` of renderings that each render or trap is the renderings run together, or a trap. */
  lemma {:induction false} JoinConcat(parts: seq<Option<string>>, pieces: seq<Outcome>)
    requires |pieces| == |parts|
    requires forall i :: 0 <= i < |parts| ==> pieces[i] == TrapOr(parts[i])
    ensures JoinOutcomes(pieces, "") == TrapOr(Concat(parts))
    decreases |parts|
  {
    if |parts| == 1 {
      assert parts[1..] == [];
      if parts[0].Some? {
        assert parts[0].value + "" == parts[0].value;
      }
    } else if |parts| > 1 {
      JoinConcat(parts[1..], pieces[1..]);
      var rest := Concat(parts[1..]);
      if parts[0].Some? && rest.Some? {
        assert parts[0].value + ("" + rest.value) == parts[0].value + rest.value;
      }
    }
  }

  /**
    What a parameter renders as for a value, `None` where rendering traps:
    a text is itself; `false` is nothing; `true` and a dictionary trap (a
    leaf has no text of its own to render between its tags); an array is
    its items' meanings run together, and traps if one of them does.
   */
  function LeafMeaning(v: Item): Option<string>
    decreases v
  {
    match v
    case Boolean(b) => if b then None else Some("")
    case Text(x) => Some(x)
    case Dict(_) => None
    case Array(items) => Concat(seq(|items|, i requires 0 <= i < |items| => LeafMeaning(items[i])))
  }

  /** The meaning of a parameter value, case by case. */
  lemma LeafMeaningCases(v: Item)
    ensures v == Boolean(true) || v.Dict? ==> LeafMeaning(v).None?
    ensures v == Boolean(false) ==> LeafMeaning(v) == Some("")
    ensures v.Text? ==> LeafMeaning(v) == Some(v.text)
    ensures v.Array? ==>
      (LeafMeaning(v).None? <==> exists i :: 0 <= i < |v.items| && LeafMeaning(v.items[i]).None?)
    ensures v.Array? && (forall i :: 0 <= i < |v.items| ==> v.items[i].Text?) ==>
      LeafMeaning(v) == Some(Join(seq(|v.items|, i requires 0 <= i < |v.items| => v.items[i].text), ""))
  {
    if v.Array? {
      var items := v.items;
      var parts := seq(|items|, i requires 0 <= i < |items| => LeafMeaning(items[i]));
      ConcatJoin(parts);
      if Concat(parts).None? {
        var i :| 0 <= i < |parts| && parts[i].None?;
        assert LeafMeaning(items[i]).None?;
      } else {
        forall i | 0 <= i < |items|
          ensures LeafMeaning(items[i]).Some?
        {
          assert parts[i] == LeafMeaning(items[i]);
        }
      }
      if forall i :: 0 <= i < |items| ==> items[i].Text? {
        assert forall i :: 0 <= i < |items| ==> parts[i] == Some(items[i].text);
        assert seq(|parts|, i requires 0 <= i < |parts| => parts[i].value)
            == seq(|items|, i requires 0 <= i < |items| => items[i].text);
      }
    }
  }

  /** A parameter leaf rendered against any value renders its `LeafMeaning`, or traps where that has none. */
  lemma {:induction false} LeafValue(fuel: nat, lib: Option<map<string, string>>, t: string, leaf: Scope,
                                     v: Item, chain: seq<Item>)
    requires IsLeaf(leaf) && leaf.startTag.tagType == Parameter
    ensures RenderScope(fuel, lib, t, leaf, v, chain) == TrapOr(LeafMeaning(v))
    decreases v
  {
    match v
    case Boolean(b) =>
      if b {
        assert RenderScope(fuel, lib, t, leaf, EmptyDict(), [v] + chain) == Trap;
      }
    case Text(_) =>
    case Dict(_) =>
    case Array(items) =>
      var parts := seq(|items|, i requires 0 <= i < |items| => LeafMeaning(items[i]));
      if |items| > 0 {
        var pieces := seq(|items|, i requires 0 <= i < |items| =>
          RenderScope(fuel, lib, t, leaf, items[i], [v] + chain));
        forall i | 0 <= i < |items|
          ensures pieces[i] == TrapOr(parts[i])
        {
          LeafValue(fuel, lib, t, leaf, items[i], [v] + chain);
        }
        JoinConcat(parts, pieces);
      }
  }

  /**
    The replacement of a parameter: nothing when its name is missing, and
    otherwise what `LeafMeaning` says of the value: a text is itself,
    `false` is nothing, `true` and a dictionary trap, and an array of texts
    is its texts joined with "".
   */
  lemma ParameterReplacement(fuel: nat, lib: Option<map<string, string>>, t: string, scope: Scope,
                             d: map<string, Item>, chain: seq<Item>, k: nat)
    requires k < |scope.children| && IsLeaf(scope.children[k]) && scope.children[k].startTag.tagType == Parameter
    ensures var found := ItemForKey([Dict(d)] + chain, scope.children[k].startTag.name);
      var rep := Replacement(fuel, lib, t, scope, Dict(d), chain, k);
      && (found.None? ==> rep == Rendered(""))
      && (found.Some? ==> rep == TrapOr(LeafMeaning(found.value)))
      && (found == Some(Boolean(true)) ==> rep == Trap)
      && (found == Some(Boolean(false)) ==> rep == Rendered(""))
      && (found.Some? && found.value.Text? ==> rep == Rendered(found.value.text))
      && (found.Some? && found.value.Dict? ==> rep == Trap)
      && (found.Some? && found.value.Array? && (forall i :: 0 <= i < |found.value.items| ==> found.value.items[i].Text?) ==>
            rep == Rendered(Join(seq(|found.value.items|, i requires 0 <= i < |found.value.items| => found.value.items[i].text), "")))
  {
    var child := scope.children[k];
    var found := ItemForKey([Dict(d)] + chain, child.startTag.name);
    if found.Some? {
      LeafValue(fuel, lib, t, child, found.value, [Dict(d)] + chain);
      LeafMeaningCases(found.value);
    }
  }

  /**
    `a{{name}}b`: the parameter is replaced by what its value means: the
    text its name looks up, nothing when the name is missing or holds
    `false`, an array's texts joined with ""; rendering traps when the name
    holds `true` or a dictionary.
   */
  lemma ParameterSubstitution(fuel: nat, lib: Option<map<string, string>>, a: string, name: string, b: string,
                              d: map<string, Item>, chain: seq<Item>)
    requires '{' !in a && '{' !in b && '}' !in name
    requires |name| > 0 && name[0] !in "#!/^"
    ensures var t := a + "{{" + name + "}}" + b;
      var found := ItemForKey([Dict(d)] + chain, name);
      var r := RenderScope(fuel, lib, t, RootScope(t), Dict(d), chain);
      && (found.None? ==> r == Rendered(a + b))
      && (found.Some? && LeafMeaning(found.value).Some? ==> r == Rendered(a + LeafMeaning(found.value).value + b))
      && (found.Some? && LeafMeaning(found.value).None? ==> r == Trap)
      && (found.Some? && found.value.Text? ==> r == Rendered(a + found.value.text + b))
      && (found == Some(Boolean(false)) ==> r == Rendered(a + b))
      && (found == Some(Boolean(true)) || (found.Some? && found.value.Dict?) ==> r == Trap)
  {
    var t := a + "{{" + name + "}}" + b;
    ParameterText(name);
    OneLeaf(fuel, lib, a, name, b, d, chain);
    var root := RootScope(t);
    ParameterReplacement(fuel, lib, t, root, d, chain, 0);
    var found := ItemForKey([Dict(d)] + chain, name);
    if found.None? {
      Around(a, "", b);
    } else {
      LeafMeaningCases(found.value);
      var m := LeafMeaning(found.value);
      if m.Some? {
        Around(a, m.value, b);
      }
    }
  }

  /** `a{{name}}b` where `name` holds the text `x`: `a`, `x`, then `b`. */
  lemma TextParameter(fuel: nat, lib: Option<map<string, string>>, a: string, name: string, b: string,
                      d: map<string, Item>, chain: seq<Item>, x: string)
    requires '{' !in a && '{' !in b && '}' !in name
    requires |name| > 0 && name[0] !in "#!/^"
    requires ItemForKey([Dict(d)] + chain, name) == Some(Text(x))
    ensures var t := a + "{{" + name + "}}" + b;
      RenderScope(fuel, lib, t, RootScope(t), Dict(d), chain) == Rendered(a + x + b)
  {
    ParameterSubstitution(fuel, lib, a, name, b, d, chain);
  }

  /** A text rendered between `a` and `b`. */
  lemma Around(a: string, x: string, b: string)
    ensures Prepend(a, Then(Rendered(x), Rendered(b))) == Rendered(a + x + b)
    ensures x == "" ==> a + x + b == a + b
  {
    assert a + (x + b) == a + x + b;
  }

  /** `a{{//anything}}b`: a comment renders as nothing. */
  lemma CommentIgnored(fuel: nat, lib: Option<map<string, string>>, a: string, rest: string, b: string,
                       d: map<string, Item>, chain: seq<Item>)
    requires '{' !in a && '{' !in b && '}' !in rest
    ensures var t := a + "{{//" + rest + "}}" + b;
      RenderScope(fuel, lib, t, RootScope(t), Dict(d), chain) == Rendered(a + b)
  {
    var content := "//" + rest;
    CommentText(rest);
    assert a + "{{//" + rest + "}}" + b == a + "{{" + content + "}}" + b;
    OneLeaf(fuel, lib, a, content, b, d, chain);
    assert a + ("" + b) == a + b;
  }

  /**
    `a{{^name}}b`: a partial is replaced by the library's template of that
    name, rendered one level deeper against the same dictionary; it renders
    as nothing without a library or without such a template.
   */
  lemma PartialIncluded(fuel: nat, lib: Option<map<string, string>>, a: string, name: string, b: string,
                        d: map<string, Item>, chain: seq<Item>)
    requires '{' !in a && '{' !in b && '}' !in name
    requires !(HasPrefix(name, "[") && HasSuffix(name, "]"))
    ensures var t := a + "{{^" + name + "}}" + b;
      var r := RenderScope(fuel, lib, t, RootScope(t), Dict(d), chain);
      && (lib.None? || name !in lib.value ==> r == Rendered(a + b))
      && (lib.Some? && name in lib.value && fuel == 0 ==> r == OutOfFuel)
      && (lib.Some? && name in lib.value && fuel > 0 ==>
            var partial := lib.value[name];
            r == Prepend(a, Then(RenderScope(fuel - 1, lib, partial, RootScope(partial), Dict(d), [Dict(d)] + chain),
                                 Rendered(b))))
  {
    var t := a + "{{^" + name + "}}" + b;
    var content := "^" + name;
    PartialText(name);
    assert t == a + "{{" + content + "}}" + b;
    OneLeaf(fuel, lib, a, content, b, d, chain);
    var root := RootScope(t);
    PartialReplacement(fuel, lib, t, root, d, chain, 0);
    assert PartialName(root.children[0], false, [Dict(d)] + chain) == Some(name);
    assert "" + b == b;
  }

  /**
    The replacement of a partial: the library's template of the name it
    asks for, rendered one level deeper against the same dictionary;
    nothing when there is no library or no such template.
   */
  lemma PartialReplacement(fuel: nat, lib: Option<map<string, string>>, t: string, scope: Scope,
                           d: map<string, Item>, chain: seq<Item>, k: nat)
    requires k < |scope.children| && scope.children[k].startTag.tagType.Partial?
    ensures var child := scope.children[k];
      var name := PartialName(child, child.startTag.tagType.indirect, [Dict(d)] + chain);
      var rep := Replacement(fuel, lib, t, scope, Dict(d), chain, k);
      && (lib.None? || name.None? || name.value !in lib.value ==> rep == Rendered(""))
      && (lib.Some? && name.Some? && name.value in lib.value && fuel == 0 ==> rep == OutOfFuel)
      && (lib.Some? && name.Some? && name.value in lib.value && fuel > 0 ==>
            var partial := lib.value[name.value];
            rep == RenderScope(fuel - 1, lib, partial, RootScope(partial), Dict(d), [Dict(d)] + chain))
  {
  }

  /** `a{{^name}}b` where the named template renders as `x`, one level down: `a`, `x`, then `b`. */
  lemma PartialRendered(fuel: nat, lib: map<string, string>, a: string, name: string, b: string,
                        d: map<string, Item>, chain: seq<Item>, x: string)
    requires '{' !in a && '{' !in b && '}' !in name
    requires !(HasPrefix(name, "[") && HasSuffix(name, "]"))
    requires fuel > 0 && name in lib
    requires RenderScope(fuel - 1, Some(lib), lib[name], RootScope(lib[name]), Dict(d), [Dict(d)] + chain) == Rendered(x)
    ensures var t := a + "{{^" + name + "}}" + b;
      RenderScope(fuel, Some(lib), t, RootScope(t), Dict(d), chain) == Rendered(a + x + b)
  {
    PartialIncluded(fuel, Some(lib), a, name, b, d, chain);
    assert a + (x + b) == a + x + b;
  }

  /**
    `a{{^[key]}}b`: an indirect partial takes the template name from the
    text value of `key`.
   */
  lemma IndirectPartialIncluded(fuel: nat, lib: map<string, string>, a: string, key: string, b: string,
                                d: map<string, Item>, chain: seq<Item>)
    requires '{' !in a && '{' !in b && '}' !in key && fuel > 0
    requires ItemForKey([Dict(d)] + chain, key).Some? && ItemForKey([Dict(d)] + chain, key).value.Text?
    requires ItemForKey([Dict(d)] + chain, key).value.text in lib
    ensures var t := a + "{{^[" + key + "]}}" + b;
      var partial := lib[ItemForKey([Dict(d)] + chain, key).value.text];
      RenderScope(fuel, Some(lib), t, RootScope(t), Dict(d), chain)
      == Prepend(a, Then(RenderScope(fuel - 1, Some(lib), partial, RootScope(partial), Dict(d), [Dict(d)] + chain),
                         Rendered(b)))
  {
    var t := a + "{{^[" + key + "]}}" + b;
    var content := "^[" + key + "]";
    IndirectPartialText(key);
    assert t == a + "{{" + content + "}}" + b;
    OneLeaf(fuel, Some(lib), a, content, b, d, chain);
    var root := RootScope(t);
    PartialReplacement(fuel, Some(lib), t, root, d, chain, 0);
    assert PartialName(root.children[0], true, [Dict(d)] + chain) == Some(ItemForKey([Dict(d)] + chain, key).value.text);
  }

  // ---------------------------------------------------------------------
  // One section
  // ---------------------------------------------------------------------

  /** The text of a section opener: `#key` or `!key`. */
  function Opener(positive: bool, key: string): string {
    (if positive then "#" else "!") + key
  }

  /** `a{{#key}}body{{/key}}b` (or with `!`). */
  function SectionTemplate(a: string, positive: bool, key: string, body: string, b: string): string {
    a + "{{" + Opener(positive, key) + "}}" + body + "{{/" + key + "}}" + b
  }

  predicate SectionParts(a: string, key: string, body: string, b: string) {
    '{' !in a && '{' !in body && '{' !in b && '}' !in key && '|' !in key && !HasPrefix(key, "/")
  }

  /** The section scope of a section template. */
  function SectionScope(a: string, positive: bool, key: string, body: string): Scope {
    var openHi := |a| + |key| + 5;
    var closeLo := openHi + |body|;
    Scope(Tag(ScopeOpen("", positive), Range(|a|, openHi), key),
          Some(Tag(ScopeClose, Range(closeLo, closeLo + |key| + 5), key)), [])
  }

  lemma OpenerInfo(positive: bool, key: string)
    requires '|' !in key
    ensures TemplateInfo(Opener(positive, key)) == Some(TagInfo(ScopeOpen("", positive), key))
  {
    var opener := Opener(positive, key);
    assert opener[0] == (if positive then '#' else '!') && opener[1..] == key;
    assert '|' !in opener;
  }

  /** The pieces of `p1 + p2 + rest` by position. */
  lemma ThreeSlices(p1: string, p2: string, rest: string)
    ensures var t := p1 + p2 + rest;
      && t[0..|p1|] == p1 && t[|p1|..|p1| + |p2|] == p2 && t[|p1| + |p2|..] == rest
  {
  }

  lemma ScanSection(a: string, positive: bool, key: string, body: string, b: string)
    requires SectionParts(a, key, body, b)
    ensures var s := SectionScope(a, positive, key, body);
      Scan(SectionTemplate(a, positive, key, body, b)) == [s.startTag, s.endTag.value]
  {
    SectionSplit(a, positive, key, body, b);
    OpenerInfo(positive, key);
    CloseText(key);
    var sc := SectionScope(a, positive, key, body);
    ScanTwoTags(a, Opener(positive, key), body, "/" + key, b, sc.startTag, sc.endTag.value);
  }

  /** A section template is its opener piece, its body-and-closer piece, then the text after it. */
  lemma SectionSplit(a: string, positive: bool, key: string, body: string, b: string)
    requires SectionParts(a, key, body, b)
    ensures SectionTemplate(a, positive, key, body, b)
         == (a + "{{" + Opener(positive, key) + "}}") + (body + "{{" + ("/" + key) + "}}") + b
    ensures '}' !in Opener(positive, key) && '}' !in "/" + key
    ensures |Opener(positive, key)| == |key| + 1
  {
    assert "{{/" + key == "{{" + ("/" + key);
  }

  /** Rendered against any dictionary, the section is its body. */
  lemma SectionBody(fuel: nat, lib: Option<map<string, string>>, a: string, positive: bool, key: string,
                    body: string, b: string, e: map<string, Item>, chain: seq<Item>)
    requires SectionParts(a, key, body, b)
    ensures var t := SectionTemplate(a, positive, key, body, b);
      RenderScope(fuel, lib, t, SectionScope(a, positive, key, body), Dict(e), chain) == Rendered(body)
  {
    var t := SectionTemplate(a, positive, key, body, b);
    var openHi := |a| + |key| + 5;
    assert t == (a + "{{" + Opener(positive, key) + "}}") + body + ("{{/" + key + "}}" + b);
    assert t[openHi..openHi + |body|] == body;
  }

  /**
    A template with one section renders as the text before it, the
    section's replacement and the text after it.
   */
  lemma OneSection(fuel: nat, lib: Option<map<string, string>>, a: string, positive: bool, key: string,
                   body: string, b: string, d: map<string, Item>, chain: seq<Item>)
    requires SectionParts(a, key, body, b)
    ensures var t := SectionTemplate(a, positive, key, body, b);
      var root := RootScope(t);
      && root.children == [SectionScope(a, positive, key, body)]
      && RenderScope(fuel, lib, t, root, Dict(d), chain)
         == Prepend(a, Then(Replacement(fuel, lib, t, root, Dict(d), chain, 0), Rendered(b)))
  {
    var t := SectionTemplate(a, positive, key, body, b);
    var s := SectionScope(a, positive, key, body);
    ScanSection(a, positive, key, body, b);
    var tags := [s.startTag, s.endTag.value];
    assert ParseSeq(tags, 2, "") == Parsed([], None, 2);
    assert ParseSeq(tags, 1, key) == Parsed([], s.endTag, 2);
    assert ParseSeq(tags, 0, "") == Parsed([s], None, 2);
    var root := RootScope(t);
    assert root == Scope(RootStart(Range(0, |t|)), Some(RootEnd(Range(0, |t|))), [s]);
    assert t[0..|a|] == a;
    var after := s.endTag.value.range.hi;
    assert t[after..|t|] == b;
    assert RenderChildren(fuel, lib, t, root, Dict(d), chain, 1, after) == Rendered(b);
  }

  /**
    What a section `{{#key}}body{{/key}}` (positive) or `{{!key}}body{{/key}}`
    (negative) means, by the value `key` looks up, for a body that renders
    as itself against any dictionary: nothing when the key is missing and
    the section is positive, the body when it is negative; otherwise what
    `ValueMeaning` says of the value.
   */
  function SectionMeaning(found: Option<Item>, positive: bool, body: string): string {
    match found
    case None => if positive then "" else body
    case Some(v) => ValueMeaning(v, positive, body)
  }

  /**
    What such a section means for a value:
    - a boolean: the body when it matches the section's polarity, else nothing;
    - a dictionary: the body, positive or negative alike;
    - a text: the text itself in place of the whole section;
    - an empty array: nothing when positive, the body when negative;
    - a non-empty array: nothing when negative; when positive, each item's
      own meaning, joined with the section's delimiter "".
   */
  function ValueMeaning(v: Item, positive: bool, body: string): string
    decreases v
  {
    match v
    case Boolean(b) => if b == positive then body else ""
    case Dict(_) => body
    case Text(x) => x
    case Array(items) =>
      if |items| == 0 then (if positive then "" else body)
      else if !positive then ""
      else Join(seq(|items|, i requires 0 <= i < |items| => ValueMeaning(items[i], positive, body)), "")
  }

  /** A section whose body renders as `body` against every dictionary renders an array of dictionaries once per item. */
  lemma SectionOverDicts(fuel: nat, lib: Option<map<string, string>>, t: string, s: Scope,
                         items: seq<Item>, chain: seq<Item>, body: string)
    requires s.startTag.tagType == ScopeOpen("", true) && |items| > 0
    requires forall i :: 0 <= i < |items| ==> items[i].Dict?
    requires forall e, c :: RenderScope(fuel, lib, t, s, Dict(e), c) == Rendered(body)
    ensures RenderScope(fuel, lib, t, s, Array(items), chain) == Rendered(Join(seq(|items|, _ => body), ""))
  {
    var texts := seq(|items|, _ => body);
    forall i | 0 <= i < |items|
      ensures RenderScope(fuel, lib, t, s, items[i], [Array(items)] + chain) == Rendered(texts[i])
    {
      assert items[i] == Dict(items[i].entries);
    }
    ArrayRendersJoined(fuel, lib, t, s, items, chain, texts);
  }

  /** The section rendered against a found value is what `ValueMeaning` says. */
  lemma {:induction false} SectionValue(fuel: nat, lib: Option<map<string, string>>, t: string, s: Scope, v: Item,
                                        chain: seq<Item>, positive: bool, body: string)
    requires s.startTag.tagType == ScopeOpen("", positive)
    requires forall e, c :: RenderScope(fuel, lib, t, s, Dict(e), c) == Rendered(body)
    ensures RenderScope(fuel, lib, t, s, v, chain) == Rendered(ValueMeaning(v, positive, body))
    decreases v
  {
    match v
    case Boolean(_) =>
      assert RenderScope(fuel, lib, t, s, EmptyDict(), [v] + chain) == Rendered(body);
    case Dict(e) =>
      assert RenderScope(fuel, lib, t, s, Dict(e), chain) == Rendered(body);
    case Text(_) =>
    case Array(items) =>
      assert RenderScope(fuel, lib, t, s, EmptyDict(), [v] + chain) == Rendered(body);
      if positive && |items| > 0 {
        var texts := seq(|items|, i requires 0 <= i < |items| => ValueMeaning(items[i], positive, body));
        forall i | 0 <= i < |items|
          ensures RenderScope(fuel, lib, t, s, items[i], [Array(items)] + chain) == Rendered(texts[i])
        {
          SectionValue(fuel, lib, t, s, items[i], [v] + chain, positive, body);
        }
        ArrayRendersJoined(fuel, lib, t, s, items, chain, texts);
      }
  }

  /** The replacement of a lone section child is what `SectionMeaning` says of its key's value. */
  lemma SectionReplacement(fuel: nat, lib: Option<map<string, string>>, t: string, root: Scope,
                           d: map<string, Item>, chain: seq<Item>, positive: bool, body: string)
    requires |root.children| == 1 && root.children[0].startTag.tagType == ScopeOpen("", positive)
    requires forall e, c :: RenderScope(fuel, lib, t, root.children[0], Dict(e), c) == Rendered(body)
    ensures Replacement(fuel, lib, t, root, Dict(d), chain, 0)
         == Rendered(SectionMeaning(ItemForKey([Dict(d)] + chain, root.children[0].Key()), positive, body))
  {
    var s := root.children[0];
    var inner := [Dict(d)] + chain;
    var found := ItemForKey(inner, s.Key());
    if found.Some? {
      SectionValue(fuel, lib, t, s, found.value, inner, positive, body);
    } else {
      assert RenderScope(fuel, lib, t, s, EmptyDict(), inner) == Rendered(body);
    }
  }

  /**
    A template holding one section renders as the text around it with the
    section replaced by what `SectionMeaning` says of its key's value.
   */
  lemma SectionRendering(fuel: nat, lib: Option<map<string, string>>, a: string, positive: bool, key: string,
                         body: string, b: string, d: map<string, Item>, chain: seq<Item>)
    requires SectionParts(a, key, body, b)
    ensures var t := SectionTemplate(a, positive, key, body, b);
      RenderScope(fuel, lib, t, RootScope(t), Dict(d), chain)
      == Rendered(a + SectionMeaning(ItemForKey([Dict(d)] + chain, key), positive, body) + b)
  {
    var t := SectionTemplate(a, positive, key, body, b);
    var root := RootScope(t);
    OneSection(fuel, lib, a, positive, key, body, b, d, chain);
    forall e, c ensures RenderScope(fuel, lib, t, root.children[0], Dict(e), c) == Rendered(body) {
      SectionBody(fuel, lib, a, positive, key, body, b, e, c);
    }
    SectionReplacement(fuel, lib, t, root, d, chain, positive, body);
    var x := SectionMeaning(ItemForKey([Dict(d)] + chain, key), positive, body);
    assert a + (x + b) == a + x + b;
  }

  // ---------------------------------------------------------------------
  // Libraries
  // ---------------------------------------------------------------------

  /** A template that includes itself never finishes: every amount of fuel runs out. */
  lemma {:induction false} SelfInclusionRunsOut(fuel: nat, lib: map<string, string>, t: string, root: Scope,
                                                d: map<string, Item>, chain: seq<Item>)
    requires t == "{{^a}}" && lib == map["a" := t] && root == RootScope(t)
    ensures RenderScope(fuel, Some(lib), t, root, Dict(d), chain) == OutOfFuel
  {
    if fuel == 0 {
      SelfInclusionStep(fuel, lib, t, root, d, chain);
    } else {
      SelfInclusionRunsOut(fuel - 1, lib, t, root, d, [Dict(d)] + chain);
      SelfInclusionDeeper(fuel, lib, t, root, d, chain);
    }
  }

  /** One level down out of fuel means out of fuel here too. */
  lemma SelfInclusionDeeper(fuel: nat, lib: map<string, string>, t: string, root: Scope, d: map<string, Item>, chain: seq<Item>)
    requires t == "{{^a}}" && lib == map["a" := t] && root == RootScope(t) && fuel > 0
    requires RenderScope(fuel - 1, Some(lib), t, root, Dict(d), [Dict(d)] + chain) == OutOfFuel
    ensures RenderScope(fuel, Some(lib), t, root, Dict(d), chain) == OutOfFuel
  {
    SelfInclusionStep(fuel, lib, t, root, d, chain);
  }

  /** One level of self-inclusion: out of fuel at zero, otherwise the same template one level down. */
  lemma SelfInclusionStep(fuel: nat, lib: map<string, string>, t: string, root: Scope, d: map<string, Item>, chain: seq<Item>)
    requires t == "{{^a}}" && lib == map["a" := t] && root == RootScope(t)
    ensures fuel == 0 ==> RenderScope(fuel, Some(lib), t, root, Dict(d), chain) == OutOfFuel
    ensures fuel > 0 ==>
      RenderScope(fuel, Some(lib), t, root, Dict(d), chain)
      == Prepend("", Then(RenderScope(fuel - 1, Some(lib), t, root, Dict(d), [Dict(d)] + chain), Rendered("")))
  {
    SelfInclusionPieces(t);
    PartialIncluded(fuel, Some(lib), "", "a", "", d, chain);
    assert lib["a"] == t;
  }

  lemma SelfInclusionPieces(t: string)
    requires t == "{{^a}}"
    ensures t == "" + "{{^" + "a" + "}}" + ""
    ensures '}' !in "a" && !(HasPrefix("a", "[") && HasSuffix("a", "]"))
  {
  }

  /** A cyclic library makes `render(with:)` run out of fuel, however much it is given. */
  lemma CyclicLibraryRunsOut(fuel: nat, d: map<string, Item>)
    ensures RenderTemplate(Some(map["a" := "{{^a}}"]), "{{^a}}", d, fuel) == OutOfFuel
  {
    SelfInclusionRunsOut(fuel, map["a" := "{{^a}}"], "{{^a}}", RootScope("{{^a}}"), d, []);
  }
}
