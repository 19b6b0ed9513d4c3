/**
  The string operations the engine borrows from Foundation and the Swift
  standard library, on `seq<char>` with `nat` offsets: forward search for a
  two-character delimiter, backward search for a character, prefix and
  suffix tests, and `components(separatedBy:)` with its inverse `joined`.
 */
module Strings {
  import opened Wrappers

  /** The two-character delimiter `cc` (such as `{{` or `}}`) starts in `s` at offset `i`. */
  predicate PairAt(s: string, c: char, i: nat) {
    i + 1 < |s| && s[i] == c && s[i + 1] == c
  }

  /** No delimiter `cc` starts in `from..<to`. */
  predicate NoPairBetween(s: string, c: char, from: nat, to: nat) {
    forall k :: from <= k < to ==> !PairAt(s, c, k)
  }

  /**
    Forward search for the delimiter `cc` in the range `from..<endIndex` of
    `s` (Foundation's `range(of:options:range:)`): the first occurrence, or
    none at all.
   */
  function FindPair(s: string, c: char, from: nat): (r: Option<nat>)
    ensures r.Some? ==> from <= r.value && PairAt(s, c, r.value) && NoPairBetween(s, c, from, r.value)
    ensures r.None? ==> forall k :: from <= k ==> !PairAt(s, c, k)
    decreases |s| - from
  {
    if from + 1 >= |s| then None
    else if PairAt(s, c, from) then Some(from)
    else FindPair(s, c, from + 1)
  }

  /** Backward search for the character `c` (`range(of:options:[.backwards])` on a one-character string). */
  function FindLast(s: string, c: char): (r: Option<nat>)
    ensures r.Some? ==> r.value < |s| && s[r.value] == c && c !in s[r.value + 1..]
    ensures r.None? ==> c !in s
  {
    if |s| == 0 then None
    else if s[|s| - 1] == c then Some(|s| - 1)
    else FindLast(s[..|s| - 1], c)
  }

  /** Forward search for the character `c`. */
  function FindFirst(s: string, c: char): (r: Option<nat>)
    ensures r.Some? ==> r.value < |s| && s[r.value] == c && c !in s[..r.value]
    ensures r.None? ==> c !in s
  {
    if |s| == 0 then None
    else if s[0] == c then Some(0)
    else match FindFirst(s[1..], c)
      case None => None
      case Some(i) => Some(i + 1)
  }

  predicate HasPrefix(s: string, p: string) {
    p <= s
  }

  predicate HasSuffix(s: string, p: string) {
    |p| <= |s| && s[|s| - |p|..] == p
  }

  /** `parts` glued together with `sep` between neighbours (Swift's `joined(separator:)`). */
  function Join(parts: seq<string>, sep: string): string {
    if |parts| == 0 then ""
    else if |parts| == 1 then parts[0]
    else parts[0] + sep + Join(parts[1..], sep)
  }

  /**
    Foundation's `components(separatedBy:)` for a one-character separator:
    always at least one component, none containing the separator, and
    joining them back gives the input.
   */
  function Split(s: string, sep: char): (parts: seq<string>)
    ensures |parts| >= 1
    ensures forall i :: 0 <= i < |parts| ==> sep !in parts[i]
    ensures Join(parts, [sep]) == s
    decreases |s|
  {
    match FindFirst(s, sep)
    case None => [s]
    case Some(i) =>
      var rest := Split(s[i + 1..], sep);
      assert s == s[..i] + [sep] + s[i + 1..];
      [s[..i]] + rest
  }

  /** Splitting the joined components gives the components back. */
  lemma {:induction false} SplitJoin(parts: seq<string>, sep: char)
    requires |parts| >= 1
    requires forall i :: 0 <= i < |parts| ==> sep !in parts[i]
    ensures Split(Join(parts, [sep]), sep) == parts
    decreases |parts|
  {
    var s := Join(parts, [sep]);
    if |parts| == 1 {
      assert FindFirst(s, sep).None?;
    } else {
      var tail := Join(parts[1..], [sep]);
      assert s == parts[0] + [sep] + tail;
      assert s[|parts[0]|] == sep && s[..|parts[0]|] == parts[0];
      assert FindFirst(s, sep) == Some(|parts[0]|);
      assert s[|parts[0]| + 1..] == tail;
      SplitJoin(parts[1..], sep);
    }
  }

  /** A string without the separator is its own single component. */
  lemma SplitWithoutSeparator(s: string, sep: char)
    requires sep !in s
    ensures Split(s, sep) == [s]
  {
    SplitJoin([s], sep);
  }
}
