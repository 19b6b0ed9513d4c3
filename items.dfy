/**
  Substitution values `BoilerPlateItem` and the key lookups of
  `ScopeReplacement`: `itemForKeyPath` walks a path of names through nested
  dictionaries, and `itemForKey` resolves a possibly dotted key against the
  chain of enclosing scopes' values, innermost first.
 */
module Items {
  import opened Wrappers
  import opened Strings

  /** `BoilerPlateItem`: the data a template is filled with. */
  datatype Item =
    | Boolean(b: bool)
    | Text(text: string)
    | Array(items: seq<Item>)
    | Dict(entries: map<string, Item>)

  /**
    A measure that goes down from a boolean or an array to what rendering
    it renders next: a dictionary (for a true boolean or an empty negated
    array) or an element.
   */
  function Rank(v: Item): (r: nat)
    ensures v.Array? ==> r >= 2 && forall i :: 0 <= i < |v.items| ==> Rank(v.items[i]) < r
    ensures v.Boolean? ==> r == 2
    ensures v.Dict? ==> r == 1
    decreases v, 1
  {
    match v
    case Boolean(_) => 2
    case Text(_) => 1
    case Dict(_) => 1
    case Array(items) => 2 + ItemsRank(items)
  }

  /** The largest rank among `items` (0 when there are none). */
  function ItemsRank(items: seq<Item>): (r: nat)
    ensures forall i :: 0 <= i < |items| ==> Rank(items[i]) <= r
    decreases items, 0
  {
    if items == [] then 0
    else
      var head, tail := Rank(items[0]), ItemsRank(items[1..]);
      assert forall i :: 1 <= i < |items| ==> items[i] == items[1..][i - 1];
      if head < tail then tail else head
  }

  /** Follow `path` through nested dictionaries; a missing name or a non-dictionary on the way gives nothing. */
  function KeyPath(v: Item, path: seq<string>): Option<Item>
    decreases |path|
  {
    if path == [] then Some(v)
    else match v
      case Dict(d) => if path[0] in d then KeyPath(d[path[0]], path[1..]) else None
      case _ => None
  }

  /** Following a path in two pieces is following it in one. */
  lemma {:induction false} KeyPathAppend(v: Item, p: seq<string>, q: seq<string>)
    ensures KeyPath(v, p).None? ==> KeyPath(v, p + q).None?
    ensures KeyPath(v, p).Some? ==> KeyPath(v, p + q) == KeyPath(KeyPath(v, p).value, q)
    decreases |p|
  {
    if p == [] {
      assert p + q == q;
    } else {
      assert (p + q)[0] == p[0] && (p + q)[1..] == p[1..] + q;
      if v.Dict? && p[0] in v.entries {
        var w := v.entries[p[0]];
        KeyPathAppend(w, p[1..], q);
        assert KeyPath(v, p + q) == KeyPath(w, p[1..] + q);
        assert KeyPath(v, p) == KeyPath(w, p[1..]);
      }
    }
  }

  /**
    `itemForKeyPath`: walk the path one name at a time, stepping into the
    current value's dictionary; give up at the first name that is missing
    or the first value that is not a dictionary.
   */
  method ItemForKeyPath(substitutions: Item, path: seq<string>) returns (r: Option<Item>)
    ensures r == KeyPath(substitutions, path)
  {
    var keyPath := path;
    var found := substitutions;
    while keyPath != []
      invariant KeyPath(found, keyPath) == KeyPath(substitutions, path)
      decreases |keyPath|
    {
      var first := keyPath[0];
      keyPath := keyPath[1..];
      if found.Dict? && first in found.entries {
        found := found.entries[first];
      } else {
        return None;
      }
    }
    return Some(found);
  }

  /**
    `itemForKey` on a chain of scope values, innermost first. The key is
    split at `.`. If the innermost value is a dictionary holding the first
    component, the rest of the path is followed from there (and a failure
    there is final); otherwise the lookup moves to the enclosing scope with
    the first component alone.
   */
  function ItemForKey(chain: seq<Item>, key: string): Option<Item>
    decreases |chain|
  {
    if chain == [] then None
    else
      var components := Split(key, '.');
      var first := components[0];
      match chain[0]
      case Dict(d) =>
        if first in d then
          if |components| > 1 then KeyPath(d[first], components[1..]) else Some(d[first])
        else ItemForKey(chain[1..], first)
      case _ => ItemForKey(chain[1..], first)
  }

  /** `v` is a dictionary with an entry `name`. */
  predicate Holds(v: Item, name: string) {
    v.Dict? && name in v.entries
  }

  /** The position of the innermost value in `chain` that holds `name`. */
  function FirstHolder(chain: seq<Item>, name: string): (r: Option<nat>)
    ensures r.Some? ==>
      && r.value < |chain| && Holds(chain[r.value], name)
      && forall k :: 0 <= k < r.value ==> !Holds(chain[k], name)
    ensures r.None? ==> forall k :: 0 <= k < |chain| ==> !Holds(chain[k], name)
    decreases |chain|
  {
    if chain == [] then None
    else if Holds(chain[0], name) then Some(0)
    else match FirstHolder(chain[1..], name)
      case None => None
      case Some(j) => Some(j + 1)
  }

  /**
    What a lookup means: the value comes from the innermost scope holding
    the key's first component. The rest of a dotted key is followed only
    when that scope is the innermost one; from an enclosing scope the value
    of the first component is returned as it is.
   */
  function Resolve(chain: seq<Item>, key: string): Option<Item> {
    var components := Split(key, '.');
    var first := components[0];
    match FirstHolder(chain, first)
    case None => None
    case Some(j) =>
      if j == 0 then KeyPath(chain[0].entries[first], components[1..])
      else Some(chain[j].entries[first])
  }

  /** A plain name found in an enclosing scope is found there as it is. */
  lemma {:induction false} ItemForKeyPlain(chain: seq<Item>, name: string)
    requires '.' !in name
    ensures ItemForKey(chain, name) ==
      match FirstHolder(chain, name) case None => None case Some(j) => Some(chain[j].entries[name])
    decreases |chain|
  {
    if chain != [] {
      SplitWithoutSeparator(name, '.');
      if !Holds(chain[0], name) {
        ItemForKeyPlain(chain[1..], name);
        assert forall k :: 1 <= k < |chain| ==> chain[k] == chain[1..][k - 1];
      }
    }
  }

  /** `itemForKey` is the lookup `Resolve` describes. */
  lemma ItemForKeyResolves(chain: seq<Item>, key: string)
    ensures ItemForKey(chain, key) == Resolve(chain, key)
  {
    if chain != [] {
      var components := Split(key, '.');
      var first := components[0];
      assert '.' !in first;
      if !Holds(chain[0], first) {
        ItemForKeyPlain(chain[1..], first);
        assert forall k :: 1 <= k < |chain| ==> chain[k] == chain[1..][k - 1];
      }
    }
  }

  /**
    The dotted path is lost when the lookup falls back to an enclosing
    scope: with `a.b` missing from the inner scope, the outer `a` is
    returned whole rather than its `b`.
   */
  lemma FallbackDropsPath()
    ensures var outer := Dict(map["a" := Dict(map["b" := Text("x")])]);
      ItemForKey([Dict(map[]), outer], "a.b") == Some(Dict(map["b" := Text("x")]))
  {
    assert Split("a.b", '.') == ["a", "b"] by {
      SplitJoin(["a", "b"], '.');
      assert Join(["a", "b"], ".") == "a.b";
    }
    SplitWithoutSeparator("a", '.');
  }
}
