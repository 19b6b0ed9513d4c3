/**
  The objects a client uses: a `BoilerPlate` holds a template and renders
  it; a `BoilerPlateLibrary` holds named templates that partial tags
  (`{{^name}}`) pull in. `RecursiveReplacement` is the renderer itself,
  step by step as the Swift code runs it.
 */
module BoilerPlates {
  import opened Wrappers
  import opened Tags
  import opened Scanner
  import opened ScopeTree
  import opened Items
  import opened Rendering

  /**
    `ScopeReplacement.recursiveReplacementInBoilerPlate`: render `scope` of
    the template `text` against `value`, with `chain` the values of the
    enclosing scope replacements, innermost first.
   */
  method RecursiveReplacement(fuel: nat, lib: Option<map<string, string>>, text: string,
                              scope: Scope, value: Item, chain: seq<Item>) returns (r: Outcome)
    ensures r == RenderScope(fuel, lib, text, scope, value, chain)
    decreases fuel, scope, Rank(value), 1
  {
    match value {
      case Boolean(b) =>
        if scope.IsPositive() == b {
          r := RecursiveReplacement(fuel, lib, text, scope, EmptyDict(), [value] + chain);
        } else {
          r := Rendered("");
        }
      case Text(t) =>
        r := Rendered(t);
      case Dict(_) =>
        r := ReplaceInDict(fuel, lib, text, scope, value, chain);
      case Array(items) =>
        if scope.IsPositive() && |items| > 0 {
          r := RenderItems(fuel, lib, text, scope, value, chain);
        } else if !scope.IsPositive() && |items| == 0 {
          r := RecursiveReplacement(fuel, lib, text, scope, EmptyDict(), [value] + chain);
        } else {
          r := Rendered("");
        }
    }
  }

  /**
    The dictionary branch: for each child, append the text since the end of
    the previous one, then its replacement; then the text up to the scope's
    own end tag.
   */
  method ReplaceInDict(fuel: nat, lib: Option<map<string, string>>, text: string,
                       scope: Scope, value: Item, chain: seq<Item>) returns (r: Outcome)
    requires value.Dict?
    ensures r == RenderChildren(fuel, lib, text, scope, value, chain, 0, scope.startTag.range.hi)
    decreases fuel, scope, 0, 1
  {
    var preceding: nat := scope.startTag.range.hi;
    var collected := "";
    var k := 0;
    while k < |scope.children|
      invariant k <= |scope.children|
      invariant RenderChildren(fuel, lib, text, scope, value, chain, 0, scope.startTag.range.hi)
             == Prepend(collected, RenderChildren(fuel, lib, text, scope, value, chain, k, preceding))
      decreases |scope.children| - k
    {
      ChildrenStep(fuel, lib, text, scope, value, chain, k, preceding);
      var child := scope.children[k];
      if !(preceding <= child.startTag.range.lo <= |text|) {
        return Trap;
      }
      var before := text[preceding..child.startTag.range.lo];
      var replacement := ChildReplacement(fuel, lib, text, scope, value, chain, k);
      if !replacement.Rendered? {
        return replacement;
      }
      if child.endTag.None? {
        return Trap;
      }
      PrependTwice(collected, before + replacement.text,
                   RenderChildren(fuel, lib, text, scope, value, chain, k + 1, child.endTag.value.range.hi));
      collected := collected + (before + replacement.text);
      preceding := child.endTag.value.range.hi;
      k := k + 1;
    }
    if scope.endTag.None? || !(preceding <= scope.endTag.value.range.lo <= |text|) {
      return Trap;
    }
    r := Rendered(collected + text[preceding..scope.endTag.value.range.lo]);
  }

  /**
    The replacement text for child `k`: nothing for a comment; the library
    template a partial names, rendered against the same value; otherwise
    the child rendered against what its key looks up, or against an empty
    dictionary when the key is missing and the child is negative.
   */
  method ChildReplacement(fuel: nat, lib: Option<map<string, string>>, text: string,
                          scope: Scope, value: Item, chain: seq<Item>, k: nat) returns (r: Outcome)
    requires k < |scope.children|
    ensures r == Replacement(fuel, lib, text, scope, value, chain, k)
    decreases fuel, scope, 0, 0
  {
    var child := scope.children[k];
    var inner := [value] + chain;
    r := Rendered("");
    if child.startTag.tagType.Comment? {
      // a comment is replaced by nothing
    } else if child.startTag.tagType.Partial? {
      if lib.Some? {
        var name := PartialName(child, child.startTag.tagType.indirect, inner);
        if name.Some? && name.value in lib.value {
          if fuel == 0 {
            r := OutOfFuel;
          } else {
            var partial := lib.value[name.value];
            var entries := AllTemplateEntries(partial);
            var partialRoot := BuildScopeTree(entries, Range(0, |partial|));
            r := RecursiveReplacement(fuel - 1, lib, partial, partialRoot, value, inner);
          }
        }
      }
    } else {
      var found := ItemForKey(inner, child.Key());
      if found.Some? {
        r := RecursiveReplacement(fuel, lib, text, child, found.value, inner);
      } else if !child.IsPositive() {
        r := RecursiveReplacement(fuel, lib, text, child, EmptyDict(), inner);
      }
    }
  }

  /** The array branch: render every item into the scope, then join them with its delimiter. */
  method RenderItems(fuel: nat, lib: Option<map<string, string>>, text: string,
                     scope: Scope, value: Item, chain: seq<Item>) returns (r: Outcome)
    requires value.Array? && scope.IsPositive() && |value.items| > 0
    ensures r == RenderScope(fuel, lib, text, scope, value, chain)
    decreases fuel, scope, Rank(value), 0
  {
    var items := value.items;
    var pieces := [];
    for i := 0 to |items|
      invariant |pieces| == i
      invariant forall j :: 0 <= j < i ==>
        pieces[j] == RenderScope(fuel, lib, text, scope, items[j], [value] + chain)
    {
      var piece := RecursiveReplacement(fuel, lib, text, scope, items[i], [value] + chain);
      pieces := pieces + [piece];
    }
    assert pieces == seq(|items|, i requires 0 <= i < |items| =>
      RenderScope(fuel, lib, text, scope, items[i], [value] + chain));
    r := JoinOutcomes(pieces, scope.Delimiter());
  }

  /** `BoilerPlateLibrary`: named templates, each knowing the library it was added to. */
  class Library {
    var plates: map<string, BoilerPlate>

    constructor()
      ensures plates == map[]
    {
      plates := map[];
    }

    /** The library's templates by name, as partial lookups see them. */
    function Templates(): (m: map<string, string>)
      reads this
      ensures m.Keys == plates.Keys
      ensures forall key :: key in m ==> m[key] == plates[key].template
    {
      map key | key in plates :: plates[key].template
    }

    /** `addBoilerPlate(_:forKey:)`: store the template under `key`, replacing any, and point it back at this library. */
    method AddBoilerPlate(plate: BoilerPlate, key: string)
      modifies this, plate
      ensures plates == old(plates)[key := plate]
      ensures plate.library == this
    {
      plates := plates[key := plate];
      plate.library := this;
    }

    /** `init(templates:)`: a library holding a new template object for each entry. */
    constructor FromTemplates(templates: map<string, string>)
      ensures Templates() == templates
      ensures forall key :: key in plates ==> fresh(plates[key]) && plates[key].library == this
    {
      plates := map[];
      new;
      var remaining := templates.Keys;
      while remaining != {}
        invariant remaining <= templates.Keys
        invariant plates.Keys == templates.Keys - remaining
        invariant forall key :: key in plates ==>
          fresh(plates[key]) && plates[key].template == templates[key] && plates[key].library == this
        decreases remaining
      {
        var key :| key in remaining;
        var plate := new BoilerPlate(templates[key]);
        AddBoilerPlate(plate, key);
        remaining := remaining - {key};
      }
    }
  }

  /** `BoilerPlate`: a template and, once added to one, the library its partials come from. */
  class BoilerPlate {
    const template: string
    var library: Library?

    constructor(template: string)
      ensures this.template == template && library == null
    {
      this.template := template;
      library := null;
    }

    /**
      `render(with:)`: scan the template, build its scope tree and render
      the root against the substitutions as a dictionary.
     */
    method Render(substitutions: map<string, Item>, fuel: nat) returns (r: Outcome)
      ensures r == RenderTemplate(if library == null then None else Some(library.Templates()),
                                  template, substitutions, fuel)
    {
      var entries := AllTemplateEntries(template);
      var root := BuildScopeTree(entries, Range(0, |template|));
      var lib := if library == null then None else Some(library.Templates());
      r := RecursiveReplacement(fuel, lib, template, root, Dict(substitutions), []);
    }
  }
}
