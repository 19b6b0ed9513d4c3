/**
  The examples the library's own tests check, as consequences of the
  general facts about templates: each one states what rendering the test's
  template against its substitutions gives.
 */
module TestVectors {
  import opened Wrappers
  import opened Strings
  import opened Tags
  import opened Scanner
  import opened Items
  import opened Rendering
  import opened Scenarios

  /** A name made of letters only. */
  predicate Letters(w: string) {
    forall i :: 0 <= i < |w| ==> 'a' <= w[i] <= 'z' || 'A' <= w[i] <= 'Z'
  }

  /** What the scanner and the lookup need to know of a name made of letters. */
  lemma LettersFacts(w: string)
    requires |w| > 0 && Letters(w)
    ensures '{' !in w && '}' !in w && '.' !in w && '|' !in w
    ensures w[0] !in "#!/^" && !HasPrefix(w, "/") && !HasPrefix(w, "[")
  {
  }

  /** The classifier on the tag texts the tests use, for any name made of letters such as `tagname`. */
  lemma ClassifierOnNames(w: string)
    requires |w| > 0 && Letters(w)
    ensures TemplateInfo(w) == Some(TagInfo(Parameter, w))
    ensures TemplateInfo("^" + w) == Some(TagInfo(Partial(false), w))
    ensures TemplateInfo("^[" + w + "]") == Some(TagInfo(Partial(true), w))
    ensures TemplateInfo("//" + w) == Some(TagInfo(Comment, ""))
    ensures TemplateInfo("#" + w) == Some(TagInfo(ScopeOpen("", true), w))
    ensures TemplateInfo("!" + w) == Some(TagInfo(ScopeOpen("", false), w))
    ensures TemplateInfo("/" + w) == Some(TagInfo(ScopeClose, w))
  {
    LettersFacts(w);
    ParameterText(w);
    PartialText(w);
    IndirectPartialText(w);
    CommentText(w);
    OpenerInfo(true, w);
    OpenerInfo(false, w);
    CloseText(w);
  }

  /** A dictionary holding `key` looks the plain `key` up there. */
  lemma LookUpPlain(d: map<string, Item>, chain: seq<Item>, key: string)
    requires '.' !in key && key in d
    ensures ItemForKey([Dict(d)] + chain, key) == Some(d[key])
  {
    SplitWithoutSeparator(key, '.');
  }

  /** A template that is one tag and nothing else holds that tag, spanning the whole text. */
  lemma ScanLoneTag(t: string, content: string, info: TagInfo)
    requires '}' !in content && TemplateInfo(content) == Some(info)
    requires t == "{{" + content + "}}"
    ensures Scan(t) == [Tag(info.tagType, Range(0, |content| + 4), info.name)]
  {
    assert t == "" + "{{" + content + "}}" + "";
    ScanOneTag(t, "", content, "");
  }

  /**
    `{{w}}`, `{{#w}}` and `{{/w}}` each hold one tag of the expected kind,
    named `w`, for a name made of letters such as the tests' `tagName`.
   */
  lemma FindOneTag(t: string, w: string, content: string, tagType: TagType)
    requires |w| > 0 && Letters(w)
    requires (content == w && tagType == Parameter)
          || (content == "#" + w && tagType == ScopeOpen("", true))
          || (content == "/" + w && tagType == ScopeClose)
    requires t == "{{" + content + "}}"
    ensures Scan(t) == [Tag(tagType, Range(0, |content| + 4), w)]
  {
    LettersFacts(w);
    if content == w {
      ParameterText(w);
    } else if content == "#" + w {
      OpenerInfo(true, w);
    } else {
      CloseText(w);
    }
    assert '}' !in content;
    ScanLoneTag(t, content, TagInfo(tagType, w));
  }

  lemma FindLoopText(a: string, body: string)
    requires a == "regular text for before text" && body == "text inside the loop, "
    ensures SectionTemplate(a, true, "tagName", body, "") == a + "{{#tagName}}" + body + "{{/tagName}}"
  {
    assert "{{" + Opener(true, "tagName") + "}}" == "{{#tagName}}";
    assert "{{/" + "tagName" + "}}" == "{{/tagName}}";
  }

  lemma FindLoopParts(a: string, body: string)
    requires a == "regular text for before text" && body == "text inside the loop, "
    ensures SectionParts(a, "tagName", body, "")
    ensures |a| == 28 && |body| == 22
  {
    assert Letters("tagName");
    LettersFacts("tagName");
  }

  /** The loop template holds the opener and the close tag of `tagName`, in that order, at their offsets. */
  lemma FindLoop(t: string, a: string, body: string)
    requires a == "regular text for before text" && body == "text inside the loop, "
    requires t == a + "{{#tagName}}" + body + "{{/tagName}}"
    ensures Scan(t) == [Tag(ScopeOpen("", true), Range(28, 40), "tagName"), Tag(ScopeClose, Range(62, 74), "tagName")]
  {
    FindLoopText(a, body);
    FindLoopParts(a, body);
    ScanSection(a, true, "tagName", body, "");
  }

  /** `{{tagName}}` with `tagName` = "Result" renders "Result". */
  lemma TextReplacement(fuel: nat, template: string, d: map<string, Item>)
    requires template == "{{tagName}}" && d == map["tagName" := Text("Result")]
    ensures RenderTemplate(None, template, d, fuel) == Rendered("Result")
  {
    assert "" + "{{" + "tagName" + "}}" + "" == template;
    assert Letters("tagName");
    LettersFacts("tagName");
    LookUpPlain(d, [], "tagName");
    assert ItemForKey([Dict(d)] + [], "tagName") == Some(Text("Result"));
    TextParameter(fuel, None, "", "tagName", "", d, [], "Result");
    assert RenderScope(fuel, None, template, RootScope(template), Dict(d), []) == Rendered("" + "Result" + "");
    assert "" + "Result" + "" == "Result";
  }

  /** The pieces `A{{super.tag}}C` splits into, and the dotted key's components. */
  lemma DictPeriodPieces()
    ensures "A{{super.tag}}C" == "A" + "{{" + "super.tag" + "}}" + "C"
    ensures "A" + "B" + "C" == "ABC"
    ensures '{' !in "A" && '{' !in "C" && '}' !in "super.tag" && "super.tag"[0] !in "#!/^"
    ensures Split("super.tag", '.') == ["super", "tag"]
  {
    DictPeriodKey();
    DictPeriodText();
    assert '}' !in "super.tag" && "super.tag"[0] !in "#!/^";
  }

  lemma DictPeriodText()
    ensures "A{{super.tag}}C" == "A" + "{{" + "super.tag" + "}}" + "C"
    ensures "A" + "B" + "C" == "ABC"
  {
    assert "A" + "{{" == "A{{";
    assert "A{{" + "super.tag" == "A{{super.tag";
    assert "A{{super.tag" + "}}" == "A{{super.tag}}";
    assert "A{{super.tag}}" + "C" == "A{{super.tag}}C";
  }

  lemma DictPeriodKey()
    ensures Split("super.tag", '.') == ["super", "tag"]
  {
    assert Letters("super") && Letters("tag");
    LettersFacts("super");
    LettersFacts("tag");
    SplitJoin(["super", "tag"], '.');
    assert Join(["super", "tag"], ".") == "super.tag";
  }

  /** `A{{super.tag}}C` with `super` = {tag: "B"} renders "ABC": a dotted key steps into a dictionary. */
  lemma DictPeriodReplacement(fuel: nat, template: string, d: map<string, Item>)
    requires template == "A{{super.tag}}C" && d == map["super" := Dict(map["tag" := Text("B")])]
    ensures RenderTemplate(None, template, d, fuel) == Rendered("ABC")
  {
    DictPeriodPieces();
    var inner := Dict(map["tag" := Text("B")]);
    assert KeyPath(inner, ["tag"]) == Some(Text("B"));
    assert ItemForKey([Dict(d)] + [], "super.tag") == KeyPath(inner, ["super", "tag"][1..]);
    TextParameter(fuel, None, "A", "super.tag", "C", d, [], "B");
  }

  lemma SectionPieces(positive: bool, body: string)
    requires '{' !in body
    ensures SectionParts("A", "tagName", body, "E")
    ensures SectionTemplate("A", positive, "tagName", body, "E")
         == "A{{" + (if positive then "#" else "!") + "tagName}}" + body + "{{/tagName}}E"
  {
    assert Letters("A") && Letters("tagName") && Letters("E");
    LettersFacts("A");
    LettersFacts("tagName");
    LettersFacts("E");
    var opener := "A{{" + (if positive then "#" else "!") + "tagName}}";
    assert "A" + "{{" + Opener(positive, "tagName") + "}}" == opener;
    assert "{{/" + "tagName" + "}}" + "E" == "{{/tagName}}E";
    calc {
      SectionTemplate("A", positive, "tagName", body, "E");
      ("A" + "{{" + Opener(positive, "tagName") + "}}") + body + ("{{/" + "tagName" + "}}" + "E");
      opener + body + "{{/tagName}}E";
    }
  }

  lemma EmptyArrayPieces()
    ensures SectionParts("A", "tagName", "C", "E")
    ensures SectionTemplate("A", true, "tagName", "C", "E") == "A{{#tagName}}C{{/tagName}}E"
    ensures "A" + "" + "E" == "AE"
  {
    SectionPieces(true, "C");
  }

  /** `A{{#tagName}}C{{/tagName}}E` with `tagName` an empty array renders "AE". */
  lemma EmptyArrayReplacement(fuel: nat, template: string, d: map<string, Item>)
    requires template == "A{{#tagName}}C{{/tagName}}E" && d == map["tagName" := Array([])]
    ensures RenderTemplate(None, template, d, fuel) == Rendered("AE")
  {
    EmptyArrayPieces();
    LookUpPlain(d, [], "tagName");
    assert SectionMeaning(ItemForKey([Dict(d)] + [], "tagName"), true, "C") == "";
    SectionRendering(fuel, None, "A", true, "tagName", "C", "E", d, []);
  }

  lemma ArrayFalseText()
    ensures SectionTemplate("A", false, "tagName", "  There is no content.  ", "E")
         == "A{{!tagName}}  There is no content.  {{/tagName}}E"
  {
    assert Opener(false, "tagName") == "!tagName";
    assert "A" + "{{" == "A{{";
    assert "A{{" + "!tagName" == "A{{!tagName";
    assert "A{{!tagName" + "}}" == "A{{!tagName}}";
    assert "A{{!tagName}}" + "  There is no content.  " == "A{{!tagName}}  There is no content.  ";
    assert "A{{!tagName}}  There is no content.  " + "{{/" == "A{{!tagName}}  There is no content.  {{/";
    assert "A{{!tagName}}  There is no content.  {{/" + "tagName" == "A{{!tagName}}  There is no content.  {{/tagName";
    assert "A{{!tagName}}  There is no content.  {{/tagName" + "}}" == "A{{!tagName}}  There is no content.  {{/tagName}}";
    assert "A{{!tagName}}  There is no content.  {{/tagName}}" + "E" == "A{{!tagName}}  There is no content.  {{/tagName}}E";
  }

  lemma ArrayFalsePieces()
    ensures var body := "  There is no content.  ";
      && SectionParts("A", "tagName", body, "E")
      && SectionTemplate("A", false, "tagName", body, "E") == "A{{!tagName}}  There is no content.  {{/tagName}}E"
  {
    assert '{' !in "  There is no content.  ";
    SectionPieces(false, "  There is no content.  ");
    ArrayFalseText();
  }

  lemma ArrayFalseResult()
    ensures "A" + "  There is no content.  " + "E" == "A  There is no content.  E"
  {
    assert "A" + "  There is no content.  " == "A  There is no content.  ";
  }

  /** `A{{!tagName}}…{{/tagName}}E` with `tagName` an empty array renders the section's text. */
  lemma ArrayFalse(fuel: nat, template: string, d: map<string, Item>)
    requires template == "A{{!tagName}}  There is no content.  {{/tagName}}E"
    requires d == map["tagName" := Array([]), "super" := Text("D")]
    ensures RenderTemplate(None, template, d, fuel) == Rendered("A  There is no content.  E")
  {
    var body := "  There is no content.  ";
    ArrayFalsePieces();
    ArrayFalseResult();
    LookUpPlain(d, [], "tagName");
    assert SectionMeaning(ItemForKey([Dict(d)] + [], "tagName"), false, body) == body;
    SectionRendering(fuel, None, "A", false, "tagName", body, "E", d, []);
  }

  lemma CommentPieces()
    ensures "A{{//tagName}}E" == "A" + "{{//" + "tagName" + "}}" + "E"
    ensures "A" + "E" == "AE"
    ensures '{' !in "A" && '{' !in "E" && '}' !in "tagName"
  {
    assert Letters("A") && Letters("tagName") && Letters("E");
    LettersFacts("A");
    LettersFacts("tagName");
    LettersFacts("E");
  }

  /** `A{{//tagName}}E` renders "AE": a comment disappears. */
  lemma IgnoreAComment(fuel: nat, template: string, d: map<string, Item>)
    requires template == "A{{//tagName}}E" && d == map["tagName" := Array([]), "super" := Text("D")]
    ensures RenderTemplate(None, template, d, fuel) == Rendered("AE")
  {
    CommentPieces();
    CommentIgnored(fuel, None, "A", "tagName", "E", d, []);
  }

  lemma SubTemplatePieces()
    ensures "{{A}}" == "" + "{{" + "A" + "}}" + ""
    ensures '{' !in "" && '}' !in "A" && "A"[0] !in "#!/^" && '.' !in "A"
  {
  }

  /** `{{A}}` rendered as a partial, one level down, against a dictionary holding `A`. */
  lemma SubTemplate(fuel: nat, lib: Option<map<string, string>>, sub: string, d: map<string, Item>, chain: seq<Item>)
    requires sub == "{{A}}" && "A" in d && d["A"].Text?
    ensures RenderScope(fuel, lib, sub, RootScope(sub), Dict(d), chain) == Rendered(d["A"].text)
  {
    SubTemplatePieces();
    assert "" + d["A"].text + "" == d["A"].text;
    LookUpPlain(d, chain, "A");
    TextParameter(fuel, lib, "", "A", "", d, chain, d["A"].text);
  }

  lemma PartialPieces(after: string)
    requires after == "" || after == "A"
    ensures "" + "{{^" + "sub" + "}}" + after == "{{^sub}}" + after
    ensures "result" + after == "result" + after
    ensures '{' !in "" && '{' !in after && '}' !in "sub" && !(HasPrefix("sub", "[") && HasSuffix("sub", "]"))
  {
    assert Letters("sub");
    LettersFacts("sub");
  }

  /**
    The library `{master: "{{^sub}}", sub: "{{A}}"}`: `master` with `A` =
    "result" renders "result".
   */
  lemma Library(fuel: nat, lib: map<string, string>, d: map<string, Item>)
    requires fuel >= 1
    requires lib == map["master" := "{{^sub}}", "sub" := "{{A}}"] && d == map["A" := Text("result")]
    ensures RenderTemplate(Some(lib), lib["master"], d, fuel) == Rendered("result")
  {
    PartialPieces("");
    assert "" + "{{^" + "sub" + "}}" + "" == lib["master"];
    assert "" + "result" + "" == "result";
    assert [Dict(d)] + [] == [Dict(d)];
    SubTemplate(fuel - 1, Some(lib), lib["sub"], d, [Dict(d)]);
    PartialRendered(fuel, lib, "", "sub", "", d, [], "result");
  }

  /** The same library with `master` = `{{^sub}}A` renders "resultA": text after a partial is kept. */
  lemma LibraryRegression(fuel: nat, lib: map<string, string>, d: map<string, Item>)
    requires fuel >= 1
    requires lib == map["master" := "{{^sub}}A", "sub" := "{{A}}"] && d == map["A" := Text("result")]
    ensures RenderTemplate(Some(lib), lib["master"], d, fuel) == Rendered("resultA")
  {
    PartialPieces("A");
    assert "" + "{{^" + "sub" + "}}" + "A" == lib["master"];
    assert "" + "result" + "A" == "resultA";
    assert [Dict(d)] + [] == [Dict(d)];
    SubTemplate(fuel - 1, Some(lib), lib["sub"], d, [Dict(d)]);
    PartialRendered(fuel, lib, "", "sub", "A", d, [], "result");
  }

  lemma IndirectionPieces()
    ensures "{{^[templateKeyName]}}" == "" + "{{^[" + "templateKeyName" + "]}}" + ""
    ensures '{' !in "" && '}' !in "templateKeyName" && '.' !in "templateKeyName" && '{' !in "b template"
  {
    assert Letters("templateKeyName");
    LettersFacts("templateKeyName");
  }

  /** `{{^[templateKeyName]}}` with `templateKeyName` = "B" includes the template named "B". */
  lemma LibraryIndirection(fuel: nat, lib: map<string, string>, d: map<string, Item>)
    requires fuel >= 1
    requires lib == map["master" := "{{^[templateKeyName]}}", "A" := "B", "B" := "b template"]
    requires d == map["templateKeyName" := Text("B")]
    ensures RenderTemplate(Some(lib), lib["master"], d, fuel) == Rendered("b template")
  {
    IndirectionPieces();
    assert "" + lib["B"] + "" == lib["B"];
    LookUpPlain(d, [], "templateKeyName");
    PlainHasNoTags(lib["B"]);
    assert [Dict(d)] + [] == [Dict(d)];
    TextRendersItself(fuel - 1, Some(lib), lib["B"], d, [Dict(d)]);
    IndirectPartialIncluded(fuel, lib, "", "templateKeyName", "", d, []);
  }
}
