# SwiftBoilerPlate templating core, in Dafny

SwiftBoilerPlate renders text templates written with mustache-like tags:

- `{{name}}` is a parameter;
- `{{#name}}…{{/name}}` is a section, and `{{!name}}…{{/name}}` an inverted one; either may carry a `|delimiter` for arrays;
- `{{//…}}` is a comment;
- `{{^name}}` includes another template of the same library, and `{{^[key]}}` includes the template whose name is the value of `key`.

This project models the core of `Sources/BoilerPlate.swift` in three stages:

1. **Scanner and classifier.** `String.allTemplateEntries` finds the tags. `String.templateInfo` reads a tag's kind and name from the text between `{{` and `}}`.
2. **Scope-tree builder.** `BoilerPlateTagScope.init(tags:fullRange:)` nests the tags into sections under a root scope that spans the whole template.
3. **Renderer.** `ScopeReplacement.recursiveReplacementInBoilerPlate` walks the tree against a substitution value (a boolean, a text, an array or a dictionary). It resolves keys through `itemForKey` and `itemForKeyPath`, and pulls in partials from a `BoilerPlateLibrary`.

Each imperative stage is a method with its loop and invariants, proved equal to a specification function:

- `Scanner.AllTemplateEntries` equals `Scanner.Scan`.
- `ScopeTree.BuildScopeTree` equals `ScopeTree.ParseTree`, a recursive-descent reading of the tag list. It is proved equal to the builder's own step-by-step semantics (`Build`) as well.
- `Items.ItemForKeyPath` equals `Items.KeyPath`.
- `BoilerPlates.RecursiveReplacement` equals `Rendering.RenderScope`.

`BoilerPlateLibrary` and `BoilerPlate` are classes whose methods update their fields.

Rendering has three outcomes:

- `Rendered(text)`: normal completion.
- `Trap`: the Swift program would stop. Within the scope tree of a template, this happens in exactly two cases:
  - a section rendered against a dictionary reaches a missing end tag: its own, or that of a child section that was never closed (`Splicing.SectionFails`);
  - a parameter is rendered against a dictionary, directly or through `true` (which renders it against an empty dictionary), or as an item of an array. A leaf's end tag is its own start tag, so the substring from the end of the one to the start of the other has its bounds the wrong way round (`Splicing.LeafTraps`, `Scenarios.LeafMeaning`).

  The tags of a scanned template are in order, so every other substring range is the right way round (`Splicing.RootLaid`). A section whose tags are all closed and whose children all render splices their renderings into its own text (`Splicing.SectionSplices`).
- `OutOfFuel`: each partial inclusion costs one unit of `fuel`, so a library whose templates include each other without end gives `OutOfFuel` instead of recursing forever.

The doc comment on `BoilerPlate` (BoilerPlate.swift:31-40) presents the syntax as Mustache's. In four places the code behaves differently from what that comment and Mustache lead a reader to expect, and the model follows the code:

- **Fallback to an enclosing scope.** When a dotted key's first component is missing from the current dictionary, the code asks the enclosing scope for the first component alone. It drops the rest of the path and returns the outer value itself (`Items.FallbackDropsPath`). It does not resolve the remaining path inside that value.
- **Unclosed sections.** A section that is never closed does not extend to the end of the document: rendering it traps on its missing end tag.
- **Top-level close.** A close tag named "" at top level (`{{/}}`) closes the root scope itself. Every later tag is then dropped from the tree.
- **Dictionary in an inverted section.** An inverted section given a dictionary still renders its body, because the dictionary branch does not look at the section's polarity.

## Model

| member | source | states |
|---|---|---|
| Tags.TagTypeEquals | Sources/BoilerPlate.swift:331-346 | the hand-written `==` on tag types holds exactly when both are the same case with equal payloads |
| Tags.TemplateInfo | Sources/BoilerPlate.swift:226-254 | the classifier rejects exactly the empty content, and every kind and name it returns can be re-encoded (`Encodable`) |
| Tags.TemplateInfoOfTagText | Sources/BoilerPlate.swift:226-254 | round trip: classifying the canonical text of any encodable kind and name gives back that kind and name |
| Tags.TagTextOfTemplateInfo | Sources/BoilerPlate.swift:226-254 | round trip the other way: any content that classifies, comments aside, is the canonical text of its classification, or that text without the trailing `|` of an opener with no delimiter |
| Tags.OpenerText | Sources/BoilerPlate.swift:228-237 | `#name|d` and `!name|d` are positive and negative openers named `name` with delimiter `d`, because the last `|` splits them |
| Tags.PartialText | Sources/BoilerPlate.swift:243-251 | `^name` is a direct partial named `name` when `name` is not in brackets |
| Tags.IndirectPartialText | Sources/BoilerPlate.swift:243-251 | `^[key]` is an indirect partial whose name is `key`, with the brackets stripped |
| Tags.CommentText | Sources/BoilerPlate.swift:238-239 | anything after `//` is a comment with an empty name |
| Tags.ParameterText | Sources/BoilerPlate.swift:253 | content starting with none of `#`, `!`, `/`, `^` is a parameter named by the whole content |
| Tags.CloseText | Sources/BoilerPlate.swift:240-242 | `/name` closes the section `name` when `name` does not itself start with `/` |
| Scanner.NextTag | Sources/BoilerPlate.swift:211-218 | one round of the scan that finds a tag ends strictly after the search start and within the text |
| Scanner.ScanRound | Sources/BoilerPlate.swift:211-218 | the loop body (find `{{`, then `}}` after it, then classify) computes exactly one round of the scan |
| Scanner.AllTemplateEntries | Sources/BoilerPlate.swift:208-224 | the scanning loop returns exactly the tags of `Scan`, including when it stops early at a missing `}}` or an empty tag |
| Scanner.ScanFromStep | Sources/BoilerPlate.swift:211-218 | the scan is empty exactly when the first round finds nothing, and otherwise is that round's tag followed by the scan from after it |
| Scanner.NextTagAt | Sources/BoilerPlate.swift:211-217 | a tag found by one round really is `{{content}}` at its range with its classification, and no `{{` comes before it in the searched part |
| Scanner.ScanFromTagsAt | Sources/BoilerPlate.swift:208-224 | every scanned tag really occurs at its range in the template, with the classification of its content |
| Scanner.ScanFromGaps | Sources/BoilerPlate.swift:208-224 | the scanned tags come left to right without overlapping, with no `{{` in the text before the first tag or between two tags |
| Scanner.NextTagStuck | Sources/BoilerPlate.swift:211-215 | a round finds nothing exactly when there is no `{{` left, no `}}` after it, or the content is empty |
| Scanner.ScanFromStops | Sources/BoilerPlate.swift:211-222 | the scan ends only where nothing more can be found after the last tag |
| Scanner.ScanWithoutOpeners | Sources/BoilerPlate.swift:211 | a template with no `{{` has no tags |
| Scanner.ScanFromTag | Sources/BoilerPlate.swift:211-218 | text `a{{content}}` with no `{` in `a` and no `}` in `content` yields its tag and the scan goes on after it |
| ScopeTree.ParseSeq | Sources/BoilerPlate.swift:380-398 | reading a section's children stops at a close tag with the section's own name met while it is the innermost open section, or runs to the end of the tags |
| ScopeTree.BuildMatchesParse | Sources/BoilerPlate.swift:373-399 | the builder's tag-by-tag semantics (move the current scope down at an opener, up at its matching close, drop other closes, stop attaching once the root is closed) gives the recursive-descent tree |
| ScopeTree.RunDetached | Sources/BoilerPlate.swift:391-396 | once a top-level close has ended the root, no later tag changes the tree |
| ScopeTree.BuildScopeTree | Sources/BoilerPlate.swift:373-399 | the builder's loop over the tags returns the recursive-descent tree `ParseTree` |
| ScopeTree.ParseTreeWellNested | Sources/BoilerPlate.swift:373-399 | every built tree has an end tag at its root; leaves end at their own tag; sections are unclosed or end at a close with their own name |
| ScopeTree.ParseTreeKeepsTags | Sources/BoilerPlate.swift:380-398 | the tree's start tags, read in order, are exactly the non-close tags up to the tag that closed the root, or all of them when the root is closed by its fake end tag |
| ScopeTree.ParseSeqLaid | Sources/BoilerPlate.swift:380-398 | children parsed from tags in text order lie in order: each starts at or after the end of the one before, only the last may be unclosed, and the last closed one ends at or before the close tag that ended them |
| ScopeTree.ParseTreeLaid | Sources/BoilerPlate.swift:373-399 | in a tree built from tags in text order, every scope lies within the text, and each section's children lie between its start and end tags, in order and without overlapping |
| ScopeTree.IsPositiveOfContent | Sources/BoilerPlate.swift:402-411 | a scope is negative exactly when its tag text starts with `!` or `//` |
| Items.KeyPathAppend | Sources/BoilerPlate.swift:94-112 | following a path in two parts is following the first part and then the second from where it led; a dead end stays one |
| Items.ItemForKeyPath | Sources/BoilerPlate.swift:94-112 | the loop steps into one dictionary per path component and gives up at a non-dictionary or missing entry, exactly as `KeyPath` does |
| Items.FirstHolder | Sources/BoilerPlate.swift:76-92 | the innermost scope value that is a dictionary holding the name, with no holder before it |
| Items.ItemForKeyPlain | Sources/BoilerPlate.swift:76-92 | a key without a dot resolves to its entry in the innermost dictionary that holds it, and to nothing when none does |
| Items.ItemForKeyResolves | Sources/BoilerPlate.swift:76-92 | `itemForKey` agrees with the reference `Resolve`: follow the rest of the path only from the current value's own entry, otherwise return whatever an enclosing scope holds for the first component |
| Items.FallbackDropsPath | Sources/BoilerPlate.swift:88-90 | `a.b` missing here but with `a` defined outside returns the outer `a` itself, not its `b` |
| Rendering.Slice | Sources/BoilerPlate.swift:142 | a substring traps exactly when its bounds are the wrong way round or past the text |
| Rendering.ChildrenStep | Sources/BoilerPlate.swift:141-185 | one child of the dictionary branch: the text before it, its replacement, then on from after its end tag; a bad range, a failed replacement or a missing end tag stops the walk with that failure |
| Rendering.JoinRendered | Sources/BoilerPlate.swift:192-194 | when every item renders, the array renders as their texts joined with the delimiter |
| Rendering.JoinFailure | Sources/BoilerPlate.swift:192-194 | the first item that fails to render decides the array's outcome |
| Rendering.ArrayRendersJoined | Sources/BoilerPlate.swift:190-194 | a positive scope given a non-empty array renders each item into the scope and joins the results with the scope's delimiter |
| Rendering.ScopeFuel | Sources/BoilerPlate.swift:117-201 | a rendering that did not run out of fuel renders the same with any more fuel |
| Rendering.ChildrenFuel | Sources/BoilerPlate.swift:139-188 | the same for the dictionary branch's walk over the children |
| Rendering.ReplacementFuel | Sources/BoilerPlate.swift:145-182 | the same for one child's replacement |
| Rendering.RenderTemplateFuel | Sources/BoilerPlate.swift:56-60 | a template that renders with some fuel renders the same with more, so the result does not depend on the bound |
| Splicing.ScanInOrder | Sources/BoilerPlate.swift:208-224 | the scanned tags lie within the template, each spans at least one character, and each ends at or before the next one starts |
| Splicing.RootLaid | Sources/BoilerPlate.swift:373-399 | every scope of a template's tree lies within the template, each section's children between its tags in order, and the tree is well nested |
| Splicing.GapFits | Sources/BoilerPlate.swift:141-142 | in such a section, the text before each child, and after the last one, is a range the right way round |
| Splicing.SplicedFrom | Sources/BoilerPlate.swift:139-187 | from any child on, when every child renders, the walk renders the text pieces and the renderings interleaved |
| Splicing.SectionSplices | Sources/BoilerPlate.swift:137-188 | a closed section rendered against a dictionary, when every child's replacement renders, is `Splice`: the text before the first child, its replacement, the text up to the next child, and so on to the text before the end tag |
| Splicing.TemplateSplices | Sources/BoilerPlate.swift:56-60 | `render(with:)` of a template whose top-level sections are closed, when every top-level child renders, is the template with each child's span replaced by its replacement |
| Splicing.FailsFrom | Sources/BoilerPlate.swift:139-187 | from any child on, the walk ends in the first child that fails or lacks an end tag |
| Splicing.SectionFails | Sources/BoilerPlate.swift:137-188 | otherwise the dictionary branch's outcome is the first child's failure, or a trap at the first missing end tag (a child's or the section's own), never a range the wrong way round |
| Splicing.FailureOrSplice | Sources/BoilerPlate.swift:139-187 | from any child on, either the remaining children are closed and render and so is the section, or there is a first failure |
| Splicing.SectionCases | Sources/BoilerPlate.swift:137-188 | the two cases above are exhaustive: every section is closed with all children rendering, or has a first failure |
| Splicing.LeafTraps | Sources/BoilerPlate.swift:137-188 | a leaf rendered against a dictionary traps, since the text between its end tag and its start tag is a range the wrong way round |
| Splicing.SpliceOwnFrom | Sources/BoilerPlate.swift:139-187 | from any child on, splicing in each child's own text gives back the text up to the end tag |
| Splicing.SpliceOwnTexts | Sources/BoilerPlate.swift:137-188 | splicing copies every character outside the children once, in order: with each child replaced by the text it spans, a closed section splices back to exactly the text between its tags |
| BoilerPlates.RecursiveReplacement | Sources/BoilerPlate.swift:117-201 | the renderer's four branches (boolean, text, dictionary, array) compute `RenderScope` |
| BoilerPlates.ReplaceInDict | Sources/BoilerPlate.swift:137-188 | the loop over the children (text before each child, its replacement, then the text up to the end tag) computes the dictionary branch of `RenderScope`, trapping where the Swift code does |
| BoilerPlates.ChildReplacement | Sources/BoilerPlate.swift:145-182 | one child's replacement: nothing for a comment, the library template for a partial, the looked-up value for the rest, an empty dictionary for a missing negative |
| BoilerPlates.RenderItems | Sources/BoilerPlate.swift:190-194 | mapping the items through the renderer and joining them computes the array branch of `RenderScope` |
| BoilerPlates.Library.constructor | Sources/BoilerPlate.swift:13-14 | a new library holds no templates |
| BoilerPlates.Library.Templates | Sources/BoilerPlate.swift:14 | the library's names map to their templates' texts, as partial lookups see them |
| BoilerPlates.Library.AddBoilerPlate | Sources/BoilerPlate.swift:15-20 | the template is stored under its key, replacing any other, nothing else changes, and it points back at this library |
| BoilerPlates.Library.FromTemplates | Sources/BoilerPlate.swift:22-27 | a library built from a dictionary of texts holds exactly those texts under their names, each in a new template that points back at it |
| BoilerPlates.BoilerPlate.constructor | Sources/BoilerPlate.swift:48-50 | a new template holds its text and belongs to no library |
| BoilerPlates.BoilerPlate.Render | Sources/BoilerPlate.swift:56-60 | rendering scans the template, builds its tree and renders the root against the substitutions as a dictionary, which is `RenderTemplate` with the template's library |
| Scenarios.TextRendersItself | Sources/BoilerPlate.swift:137-188 | a template without tags renders as itself |
| Scenarios.PlainHasNoTags | Sources/BoilerPlate.swift:211 | text without `{` holds no tags |
| Scenarios.ScanOneTag | Sources/BoilerPlate.swift:208-224 | `a{{content}}b` with plain text around the tag holds exactly that one tag |
| Scenarios.ScanTwoTags | Sources/BoilerPlate.swift:208-224 | plain text with two tags holds exactly those two, at their ranges |
| Scenarios.OneLeaf | Sources/BoilerPlate.swift:137-188 | a template with one leaf tag renders as the text before it, its replacement, then the text after it |
| Scenarios.ConcatJoin | Sources/BoilerPlate.swift:190-194 | running optional texts together misses exactly when one of them is missing, and otherwise joins them with "" |
| Scenarios.JoinConcat | Sources/BoilerPlate.swift:190-194 | `joined()` over renderings that each render or trap is their texts run together, or a trap if any of them traps |
| Scenarios.LeafMeaningCases | Sources/BoilerPlate.swift:128-199 | a parameter's meaning: a text is itself, `false` is nothing, `true` and a dictionary trap, an array traps exactly when one of its items does, and an array of texts is its texts joined with "" |
| Scenarios.LeafValue | Sources/BoilerPlate.swift:128-199 | a parameter rendered against any value, nested arrays included, renders its `LeafMeaning` or traps where that has none |
| Scenarios.ParameterReplacement | Sources/BoilerPlate.swift:128-199 | a parameter is replaced by nothing when its key is missing, and otherwise by its `LeafMeaning`: its text, nothing for `false`, a trap for `true` or a dictionary, the texts of an array of texts joined with "" |
| Scenarios.ParameterSubstitution | Sources/BoilerPlate.swift:128-199 | `a{{name}}b` renders as `a`, then the value's meaning, then `b`: nothing when the name is missing or holds `false`; it traps when the value has no meaning, as for `true` or a dictionary |
| Scenarios.TextParameter | Sources/BoilerPlate.swift:137-188 | `a{{name}}b` with `name` holding the text `x` renders `a`, `x`, then `b` |
| Scenarios.CommentIgnored | Sources/BoilerPlate.swift:147-148 | a comment tag is replaced by nothing |
| Scenarios.PartialReplacement | Sources/BoilerPlate.swift:149-171 | a partial renders the library template it names against the same value, costs one unit of fuel, and renders nothing without a library or a template of that name |
| Scenarios.PartialIncluded | Sources/BoilerPlate.swift:149-171 | `a{{^name}}b` renders `a`, then the named template, then `b`, or `a` and `b` alone when there is no such template |
| Scenarios.PartialRendered | Sources/BoilerPlate.swift:149-171 | when the included template renders to `x`, `a{{^name}}b` renders to `a + x + b` |
| Scenarios.IndirectPartialIncluded | Sources/BoilerPlate.swift:151-162 | `{{^[key]}}` includes the template named by the text value of `key` |
| Scenarios.ScanSection | Sources/BoilerPlate.swift:208-224 | `a{{#key}}body{{/key}}b` and its inverted form hold exactly the opener and the close |
| Scenarios.OneSection | Sources/BoilerPlate.swift:373-399 | that template's tree has the section as its only child, closed by its close tag, and renders as `a`, its replacement, then `b` |
| Scenarios.SectionBody | Sources/BoilerPlate.swift:137-188 | the section's body renders as itself against any dictionary |
| Scenarios.SectionValue | Sources/BoilerPlate.swift:128-199 | a section given any value renders as `ValueMeaning` says: a boolean, text or dictionary, or an array, whose items (nested arrays included) each render their own meaning, joined with "" |
| Scenarios.SectionReplacement | Sources/BoilerPlate.swift:173-182 | the same for the value the section's key looks up, including the missing key of a negative section |
| Scenarios.SectionRendering | Sources/BoilerPlate.swift:117-201 | `a{{#key}}body{{/key}}b` and `a{{!key}}body{{/key}}b` render as `a`, then the section's meaning for the value of `key`, then `b`, for every value: a boolean that matches shows the body, an empty array shows the body only when inverted, a dictionary shows it in either form, a non-empty array shows each item's meaning in a positive section |
| Scenarios.SectionOverDicts | Sources/BoilerPlate.swift:190-194 | a positive section over an array of dictionaries repeats its body once per item |
| Scenarios.SelfInclusionRunsOut | Sources/BoilerPlate.swift:149-171 | a template that includes itself never finishes, whatever the fuel |
| Scenarios.CyclicLibraryRunsOut | Sources/BoilerPlate.swift:166-169 | rendering `{{^a}}` with a library mapping `a` to itself runs out of fuel for every bound |
| TestVectors.ClassifierOnNames | Tests/SwiftBoilerPlateTests/BoilerPlateTests.swift:49-103 | the classifier on `name`, `^name`, `^[name]`, `//name`, `#name`, `!name` and `/name` for a name made of letters |
| TestVectors.FindOneTag | Tests/SwiftBoilerPlateTests/BoilerPlateTests.swift:105-133 | `{{tagName}}`, `{{#tagName}}` and `{{/tagName}}` each hold one tag of the expected kind and name, spanning the whole text |
| TestVectors.FindLoop | Tests/SwiftBoilerPlateTests/BoilerPlateTests.swift:135-147 | the loop template holds an opener at 28..<40 and a close at 62..<74, both named `tagName` |
| TestVectors.TextReplacement | Tests/SwiftBoilerPlateTests/BoilerPlateTests.swift:149-153 | `{{tagName}}` with text `Result` renders `Result` |
| TestVectors.DictPeriodReplacement | Tests/SwiftBoilerPlateTests/BoilerPlateTests.swift:161-165 | `A{{super.tag}}C` with `super` = {tag: B} renders `ABC` |
| TestVectors.EmptyArrayReplacement | Tests/SwiftBoilerPlateTests/BoilerPlateTests.swift:167-172 | a positive section over an empty array renders nothing: `AE` |
| TestVectors.ArrayFalse | Tests/SwiftBoilerPlateTests/BoilerPlateTests.swift:206-211 | an inverted section over an empty array renders its body |
| TestVectors.IgnoreAComment | Tests/SwiftBoilerPlateTests/BoilerPlateTests.swift:221-226 | `A{{//tagName}}E` renders `AE` |
| TestVectors.Library | Tests/SwiftBoilerPlateTests/BoilerPlateTests.swift:231-241 | `master` = `{{^sub}}` with `sub` = `{{A}}` renders `result`; the same library as built in 265-273 |
| TestVectors.LibraryRegression | Tests/SwiftBoilerPlateTests/BoilerPlateTests.swift:243-253 | text after a partial is kept: `resultA` |
| TestVectors.LibraryIndirection | Tests/SwiftBoilerPlateTests/BoilerPlateTests.swift:255-262 | `{{^[templateKeyName]}}` with `templateKeyName` = `B` renders the template `B` |

## Left out

- Thread safety: the `QueuedVar` lock around the library's dictionary is not modelled. Reads and writes are plain field accesses.
- Weak references and reference counting: `BoilerPlate.library` is a plain nullable field, and the renderer receives the library's contents as a value.
- Caching: the lazy `rootTagScope` is rebuilt on every render. Building is deterministic, so the result is the same.
- String positions: `String.Index` positions and grapheme clusters become character offsets into a `seq<char>`.
- Unrelated helpers: the `Boil` constructors and the literal conformances of `BoilerPlateItem` only build values; they are not modelled.
- Dead code: the commented-out partial block at 118-126 and the unused `renderingIndex` at 115 are not modelled.
- Scope objects: `superScope` and `key` of a scope, and `superScopeReplacement`, are not separate fields. The key is the start tag's name, the delimiter comes from the start tag, and the chain of enclosing values is a sequence passed down.
- BoilerPlates.RecursiveReplacement: a nested partial renders with the library of the template that included it, whereas the Swift code uses the included template's own library. The two are the same unless one template object has been added to two libraries.
- Rendering.RenderScope: recursion through partials is bounded by a fuel count, and a cyclic library gives `OutOfFuel` where the Swift program would overflow its stack.
- Test vectors for dictionary replacement, arrays of items, array delimiters, `Boil` and missing dictionary entries (155-159, 174-195, 198-203 and 214-219 of the tests) are not stated as lemmas. They are covered only by the general `RenderScope` definition and its lemmas.
