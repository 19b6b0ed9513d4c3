/**
  The meaning of `recursiveReplacementInBoilerPlate`: what a scope renders
  to against a value, given the template text it was parsed from, the
  values of the enclosing scopes (innermost first) and the library that
  partials are looked up in.

  Rendering can fail: the Swift code force-unwraps the end tag of a section
  that was never closed and builds a substring range whose bounds are the
  wrong way round when a leaf is rendered as a dictionary; both stop the
  program (`Trap`). Partials that include themselves recurse without end;
  here each partial costs one unit of `fuel`, and running out is reported
  as `OutOfFuel`. The first failure met, in the order the Swift code
  evaluates, is the outcome.
 */
module Rendering {
  import opened Wrappers
  import opened Strings
  import opened Tags
  import opened Scanner
  import opened ScopeTree
  import opened Items

  datatype Outcome = Rendered(text: string) | Trap | OutOfFuel

  /** `text` in front of an outcome; a failure stays a failure. */
  function Prepend(text: string, o: Outcome): Outcome {
    match o
    case Rendered(rest) => Rendered(text + rest)
    case _ => o
  }

  /** One outcome followed by another: the first failure wins. */
  function Then(first: Outcome, second: Outcome): Outcome {
    match first
    case Rendered(text) => Prepend(text, second)
    case _ => first
  }

  /** `template.substring(with: lo..<hi)`: a range with its bounds the wrong way round traps. */
  function Slice(text: string, lo: nat, hi: nat): (r: Outcome)
    ensures r.Rendered? <==> lo <= hi <= |text|
    ensures r.Rendered? ==> r.text == text[lo..hi]
  {
    if lo <= hi <= |text| then Rendered(text[lo..hi]) else Trap
  }

  /** The scope tree of a whole template (`rootTagScope`). */
  function RootScope(template: string): Scope {
    ParseTree(Scan(template), Range(0, |template|))
  }

  /** The dictionary that stands in when a section renders without a value of its own. */
  function EmptyDict(): Item {
    Dict(map[])
  }

  /**
    A scope rendered against `value`:
    - a boolean renders the scope against an empty dictionary when it
      matches the scope's polarity, and renders nothing otherwise;
    - a text renders as itself, whatever the scope holds;
    - a dictionary renders the scope's text with each child replaced;
    - an array renders each item into the scope, joined with the scope's
      delimiter, when the scope is positive and the array is not empty; a
      negative scope with an empty array renders against an empty
      dictionary; anything else renders nothing.
    The value joins the chain of enclosing values for everything rendered
    inside.
   */
  function RenderScope(fuel: nat, lib: Option<map<string, string>>, text: string,
                       scope: Scope, value: Item, chain: seq<Item>): Outcome
    decreases fuel, scope, Rank(value), 0, 0
  {
    match value
    case Boolean(b) =>
      if scope.IsPositive() == b then RenderScope(fuel, lib, text, scope, EmptyDict(), [value] + chain)
      else Rendered("")
    case Text(t) => Rendered(t)
    case Dict(_) => RenderChildren(fuel, lib, text, scope, value, chain, 0, scope.startTag.range.hi)
    case Array(items) =>
      if scope.IsPositive() && |items| > 0 then
        JoinOutcomes(
          seq(|items|, i requires 0 <= i < |items| => RenderScope(fuel, lib, text, scope, items[i], [value] + chain)),
          scope.Delimiter())
      else if !scope.IsPositive() && |items| == 0 then
        RenderScope(fuel, lib, text, scope, EmptyDict(), [value] + chain)
      else Rendered("")
  }

  /**
    The dictionary branch from child `k` on, with the text before it
    starting at `prev`: the text up to the child, its replacement, then the
    rest after the child's end tag; after the last child, the text up to
    the scope's own end tag.
   */
  function RenderChildren(fuel: nat, lib: Option<map<string, string>>, text: string,
                          scope: Scope, value: Item, chain: seq<Item>, k: nat, prev: nat): Outcome
    requires value.Dict?
    requires k <= |scope.children|
    decreases fuel, scope, 0, |scope.children| - k, 1
  {
    if k == |scope.children| then
      if scope.endTag.None? then Trap else Slice(text, prev, scope.endTag.value.range.lo)
    else
      var child := scope.children[k];
      Then(Slice(text, prev, child.startTag.range.lo),
        Then(Replacement(fuel, lib, text, scope, value, chain, k),
          if child.endTag.None? then Trap
          else RenderChildren(fuel, lib, text, scope, value, chain, k + 1, child.endTag.value.range.hi)))
  }

  /** The name of the partial a partial tag asks for: its own name, or for `^[key]` the text value of `key`. */
  function PartialName(child: Scope, indirect: bool, lookupChain: seq<Item>): Option<string> {
    if indirect then
      match ItemForKey(lookupChain, child.Key())
      case Some(Text(name)) => Some(name)
      case _ => None
    else Some(child.startTag.name)
  }

  /**
    The replacement for child `k` of a scope rendered against the
    dictionary `value`: nothing for a comment; for a partial, the named
    template of the library rendered against the same value (nothing when
    there is no library or no such template); otherwise the child rendered
    against the value its key looks up, or, when the key is missing,
    against an empty dictionary if the child is negative and as nothing if
    it is positive.
   */
  function Replacement(fuel: nat, lib: Option<map<string, string>>, text: string,
                       scope: Scope, value: Item, chain: seq<Item>, k: nat): Outcome
    requires k < |scope.children|
    decreases fuel, scope, 0, |scope.children| - k, 0
  {
    var child := scope.children[k];
    var inner := [value] + chain;
    match child.startTag.tagType
    case Comment => Rendered("")
    case Partial(indirect) =>
      if lib.None? then Rendered("")
      else
        var name := PartialName(child, indirect, inner);
        if name.Some? && name.value in lib.value then
          if fuel == 0 then OutOfFuel
          else
            var partial := lib.value[name.value];
            RenderScope(fuel - 1, lib, partial, RootScope(partial), value, inner)
        else Rendered("")
    case _ =>
      match ItemForKey(inner, child.Key())
      case Some(found) => RenderScope(fuel, lib, text, child, found, inner)
      case None =>
        if !child.IsPositive() then RenderScope(fuel, lib, text, child, EmptyDict(), inner)
        else Rendered("")
  }

  /**
    `joined(separator:)` over rendered pieces: the pieces' texts with `sep`
    between each two; the first piece that failed, if any, is the outcome.
   */
  function JoinOutcomes(pieces: seq<Outcome>, sep: string): Outcome
    decreases |pieces|
  {
    if pieces == [] then Rendered("")
    else if |pieces| == 1 then pieces[0]
    else Then(pieces[0], Prepend(sep, JoinOutcomes(pieces[1..], sep)))
  }

  /** `BoilerPlate.render(with:)`: the whole template rendered against a dictionary of substitutions. */
  function RenderTemplate(lib: Option<map<string, string>>, template: string,
                          substitutions: map<string, Item>, fuel: nat): Outcome
  {
    RenderScope(fuel, lib, template, RootScope(template), Dict(substitutions), [])
  }

  /**
    One child of the dictionary branch: a child whose preceding text,
    replacement and end tag all exist adds them and hands on to the next
    child; otherwise the walk stops with the first failure.
   */
  lemma ChildrenStep(fuel: nat, lib: Option<map<string, string>>, text: string,
                     scope: Scope, value: Item, chain: seq<Item>, k: nat, prev: nat)
    requires value.Dict? && k < |scope.children|
    ensures var child := scope.children[k];
      var rep := Replacement(fuel, lib, text, scope, value, chain, k);
      var here := RenderChildren(fuel, lib, text, scope, value, chain, k, prev);
      && (!(prev <= child.startTag.range.lo <= |text|) ==> here == Trap)
      && (prev <= child.startTag.range.lo <= |text| && !rep.Rendered? ==> here == rep)
      && (prev <= child.startTag.range.lo <= |text| && rep.Rendered? && child.endTag.None? ==> here == Trap)
      && (prev <= child.startTag.range.lo <= |text| && rep.Rendered? && child.endTag.Some? ==>
            here == Prepend(text[prev..child.startTag.range.lo] + rep.text,
                            RenderChildren(fuel, lib, text, scope, value, chain, k + 1, child.endTag.value.range.hi)))
  {
    var child := scope.children[k];
    var lo := child.startTag.range.lo;
    var rep := Replacement(fuel, lib, text, scope, value, chain, k);
    var after := if child.endTag.None? then Trap
      else RenderChildren(fuel, lib, text, scope, value, chain, k + 1, child.endTag.value.range.hi);
    assert RenderChildren(fuel, lib, text, scope, value, chain, k, prev) == Then(Slice(text, prev, lo), Then(rep, after));
    if prev <= lo <= |text| && rep.Rendered? {
      PrependTwice(text[prev..lo], rep.text, after);
    }
  }

  /** Two texts put in front one after the other are their concatenation put in front. */
  lemma PrependTwice(a: string, b: string, o: Outcome)
    ensures Prepend(a, Prepend(b, o)) == Prepend(a + b, o)
  {
    if o.Rendered? {
      assert a + (b + o.text) == (a + b) + o.text;
    }
  }

  // ---------------------------------------------------------------------
  // Joining rendered pieces
  // ---------------------------------------------------------------------

  /** When every piece renders, the join is `Strings.Join` of their texts. */
  lemma {:induction false} JoinRendered(pieces: seq<Outcome>, texts: seq<string>, sep: string)
    requires |pieces| == |texts|
    requires forall i :: 0 <= i < |pieces| ==> pieces[i] == Rendered(texts[i])
    ensures JoinOutcomes(pieces, sep) == Rendered(Join(texts, sep))
    decreases |pieces|
  {
    if |pieces| > 1 {
      JoinRendered(pieces[1..], texts[1..], sep);
      assert texts[0] + (sep + Join(texts[1..], sep)) == texts[0] + sep + Join(texts[1..], sep);
    }
  }

  /** When a piece fails, the join is the first failed piece. */
  lemma {:induction false} JoinFailure(pieces: seq<Outcome>, j: nat, sep: string)
    requires j < |pieces| && !pieces[j].Rendered?
    requires forall i :: 0 <= i < j ==> pieces[i].Rendered?
    ensures JoinOutcomes(pieces, sep) == pieces[j]
    decreases |pieces|
  {
    if j > 0 {
      JoinFailure(pieces[1..], j - 1, sep);
    }
  }

  /**
    An array rendered into a positive scope is the `joined(separator:)` of
    its items' renderings with the scope's delimiter between them.
   */
  lemma ArrayRendersJoined(fuel: nat, lib: Option<map<string, string>>, text: string,
                           scope: Scope, items: seq<Item>, chain: seq<Item>, texts: seq<string>)
    requires scope.IsPositive() && |items| > 0 && |texts| == |items|
    requires forall i :: 0 <= i < |items| ==>
      RenderScope(fuel, lib, text, scope, items[i], [Array(items)] + chain) == Rendered(texts[i])
    ensures RenderScope(fuel, lib, text, scope, Array(items), chain) == Rendered(Join(texts, scope.Delimiter()))
  {
    var pieces := seq(|items|, i requires 0 <= i < |items| =>
      RenderScope(fuel, lib, text, scope, items[i], [Array(items)] + chain));
    JoinRendered(pieces, texts, scope.Delimiter());
  }

  // ---------------------------------------------------------------------
  // Fuel only bounds partial nesting
  // ---------------------------------------------------------------------

  /** More fuel changes nothing in a join whose pieces only gain from it. */
  lemma {:induction false} JoinStable(pieces: seq<Outcome>, more: seq<Outcome>, sep: string)
    requires |pieces| == |more|
    requires forall i :: 0 <= i < |pieces| && !pieces[i].OutOfFuel? ==> more[i] == pieces[i]
    requires !JoinOutcomes(pieces, sep).OutOfFuel?
    ensures JoinOutcomes(more, sep) == JoinOutcomes(pieces, sep)
    decreases |pieces|
  {
    if |pieces| > 1 && pieces[0].Rendered? {
      JoinStable(pieces[1..], more[1..], sep);
    }
  }

  lemma {:induction false} ScopeFuel(fuel: nat, more: nat, lib: Option<map<string, string>>, text: string,
                                     scope: Scope, value: Item, chain: seq<Item>)
    requires !RenderScope(fuel, lib, text, scope, value, chain).OutOfFuel?
    ensures RenderScope(fuel + more, lib, text, scope, value, chain) == RenderScope(fuel, lib, text, scope, value, chain)
    decreases fuel, scope, Rank(value), 0, 0
  {
    match value
    case Boolean(b) =>
      if scope.IsPositive() == b {
        ScopeFuel(fuel, more, lib, text, scope, EmptyDict(), [value] + chain);
      }
    case Text(_) =>
    case Dict(_) =>
      ChildrenFuel(fuel, more, lib, text, scope, value, chain, 0, scope.startTag.range.hi);
    case Array(items) =>
      if scope.IsPositive() && |items| > 0 {
        var pieces := seq(|items|, i requires 0 <= i < |items| =>
          RenderScope(fuel, lib, text, scope, items[i], [value] + chain));
        var fueled := seq(|items|, i requires 0 <= i < |items| =>
          RenderScope(fuel + more, lib, text, scope, items[i], [value] + chain));
        forall i | 0 <= i < |items| && !pieces[i].OutOfFuel?
          ensures fueled[i] == pieces[i]
        {
          ScopeFuel(fuel, more, lib, text, scope, items[i], [value] + chain);
        }
        JoinStable(pieces, fueled, scope.Delimiter());
      } else if !scope.IsPositive() && |items| == 0 {
        ScopeFuel(fuel, more, lib, text, scope, EmptyDict(), [value] + chain);
      }
  }

  lemma {:induction false} ChildrenFuel(fuel: nat, more: nat, lib: Option<map<string, string>>, text: string,
                                        scope: Scope, value: Item, chain: seq<Item>, k: nat, prev: nat)
    requires value.Dict? && k <= |scope.children|
    requires !RenderChildren(fuel, lib, text, scope, value, chain, k, prev).OutOfFuel?
    ensures RenderChildren(fuel + more, lib, text, scope, value, chain, k, prev)
         == RenderChildren(fuel, lib, text, scope, value, chain, k, prev)
    decreases fuel, scope, 0, |scope.children| - k, 1
  {
    if k < |scope.children| {
      var child := scope.children[k];
      if Slice(text, prev, child.startTag.range.lo).Rendered? {
        var rep := Replacement(fuel, lib, text, scope, value, chain, k);
        if !rep.OutOfFuel? {
          ReplacementFuel(fuel, more, lib, text, scope, value, chain, k);
        }
        if rep.Rendered? && child.endTag.Some? {
          ChildrenFuel(fuel, more, lib, text, scope, value, chain, k + 1, child.endTag.value.range.hi);
        }
      }
    }
  }

  lemma {:induction false} ReplacementFuel(fuel: nat, more: nat, lib: Option<map<string, string>>, text: string,
                                           scope: Scope, value: Item, chain: seq<Item>, k: nat)
    requires k < |scope.children|
    requires !Replacement(fuel, lib, text, scope, value, chain, k).OutOfFuel?
    ensures Replacement(fuel + more, lib, text, scope, value, chain, k)
         == Replacement(fuel, lib, text, scope, value, chain, k)
    decreases fuel, scope, 0, |scope.children| - k, 0
  {
    var child := scope.children[k];
    var inner := [value] + chain;
    if child.startTag.tagType.Partial? {
      var name := PartialName(child, child.startTag.tagType.indirect, inner);
      if lib.Some? && name.Some? && name.value in lib.value {
        var partial := lib.value[name.value];
        ScopeFuel(fuel - 1, more, lib, partial, RootScope(partial), value, inner);
      }
    } else if !child.startTag.tagType.Comment? {
      var found := ItemForKey(inner, child.Key());
      if found.Some? {
        ScopeFuel(fuel, more, lib, text, child, found.value, inner);
      } else if !child.IsPositive() {
        ScopeFuel(fuel, more, lib, text, child, EmptyDict(), inner);
      }
    }
  }

  /**
    Fuel is only a bound on how deeply partials nest: a rendering that did
    not run out of fuel comes out the same with any more fuel.
   */
  lemma RenderTemplateFuel(lib: Option<map<string, string>>, template: string,
                           substitutions: map<string, Item>, fuel: nat, more: nat)
    requires !RenderTemplate(lib, template, substitutions, fuel).OutOfFuel?
    ensures RenderTemplate(lib, template, substitutions, fuel + more)
         == RenderTemplate(lib, template, substitutions, fuel)
  {
    ScopeFuel(fuel, more, lib, template, RootScope(template), Dict(substitutions), []);
  }
}
