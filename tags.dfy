/**
  Tags: the `{{...}}` directives of a template, their kinds, and the
  classifier `templateInfo` that reads a tag's kind and name from the text
  between the delimiters.
 */
module Tags {
  import opened Wrappers
  import opened Strings

  /** `BoilerPlateTagType`. */
  datatype TagType =
    | Parameter                                  // {{name}}
    | ScopeOpen(delimiter: string, positive: bool) // {{#name|delim}} or {{!name|delim}}
    | Comment                                    // {{//...}}
    | ScopeClose                                 // {{/name}}
    | Partial(indirect: bool)                    // {{^name}} or {{^[key]}}

  /** A half-open span `lo..<hi` of character offsets. */
  datatype Range = Range(lo: nat, hi: nat)

  /** `BoilerPlateTag`: one tag found in a template, with the span of its whole `{{...}}` token. */
  datatype Tag = Tag(tagType: TagType, range: Range, name: string)

  /** What the classifier reads from a tag's content: its kind and its name. */
  datatype TagInfo = TagInfo(tagType: TagType, name: string)

  /** The hand-written `==` on tag types: the same case with equal payloads. */
  function TagTypeEquals(lhs: TagType, rhs: TagType): (r: bool)
    ensures r <==> lhs == rhs
  {
    match (lhs, rhs)
    case (Parameter, Parameter) => true
    case (ScopeClose, ScopeClose) => true
    case (Comment, Comment) => true
    case (ScopeOpen(ld, lp), ScopeOpen(rd, rp)) => ld == rd && lp == rp
    case (Partial(li), Partial(ri)) => li == ri
    case _ => false
  }

  /**
    The contents a classification can come from once re-encoded: a parameter
    name that does not look like a directive, a delimiter free of `|`, the
    empty comment name, a close name not starting with `/`, and a literal
    partial name not wrapped in brackets.
   */
  predicate Encodable(info: TagInfo) {
    match info.tagType
    case Parameter => |info.name| > 0 && info.name[0] !in "#!/^"
    case ScopeOpen(d, _) => '|' !in d
    case Comment => info.name == ""
    case ScopeClose => !HasPrefix(info.name, "/")
    case Partial(indirect) => indirect || !(HasPrefix(info.name, "[") && HasSuffix(info.name, "]"))
  }

  /**
    `String.templateInfo`: classify the exact text between `{{` and `}}`.
    The prefixes are tried in a fixed order: `#`/`!`, `//`, `/`, `^`, and
    anything else is a parameter named by the whole content.
   */
  function TemplateInfo(content: string): (r: Option<TagInfo>)
    ensures r.None? <==> |content| == 0
    ensures r.Some? ==> Encodable(r.value)
  {
    if |content| == 0 then None
    else if content[0] == '#' || content[0] == '!' then
      var positive := content[0] == '#';
      match FindLast(content, '|')
      case None => Some(TagInfo(ScopeOpen("", positive), content[1..]))
      case Some(bar) => Some(TagInfo(ScopeOpen(content[bar + 1..], positive), content[1..bar]))
    else if HasPrefix(content, "//") then Some(TagInfo(Comment, ""))
    else if HasPrefix(content, "/") then Some(TagInfo(ScopeClose, content[1..]))
    else if HasPrefix(content, "^") then
      var templateName := content[1..];
      if HasPrefix(templateName, "[") && HasSuffix(templateName, "]") then
        assert templateName[0] == '[' && templateName[|templateName| - 1] == ']';
        Some(TagInfo(Partial(true), templateName[1..|templateName| - 1]))
      else
        Some(TagInfo(Partial(false), templateName))
    else Some(TagInfo(Parameter, content))
  }

  /**
    The canonical tag content for a kind and a name; a section opener always
    carries its `|` so that any delimiter, the empty one included, survives.
   */
  function TagText(info: TagInfo): string {
    match info.tagType
    case Parameter => info.name
    case ScopeOpen(d, positive) => [if positive then '#' else '!'] + info.name + "|" + d
    case Comment => "//" + info.name
    case ScopeClose => "/" + info.name
    case Partial(indirect) => if indirect then "^[" + info.name + "]" else "^" + info.name
  }

  /** Classifying the canonical text of an encodable kind and name gives them back. */
  lemma TemplateInfoOfTagText(info: TagInfo)
    requires Encodable(info)
    ensures TemplateInfo(TagText(info)) == Some(info)
  {
    match info.tagType
    case ScopeOpen(d, positive) => OpenerText(info.name, d, positive);
    case Partial(indirect) => if indirect { IndirectPartialText(info.name); } else { PartialText(info.name); }
    case Parameter => ParameterText(info.name);
    case Comment => CommentText(info.name);
    case ScopeClose => CloseText(info.name);
  }

  lemma OpenerText(name: string, d: string, positive: bool)
    requires '|' !in d
    ensures TemplateInfo([if positive then '#' else '!'] + name + "|" + d)
         == Some(TagInfo(ScopeOpen(d, positive), name))
  {
    var s := [if positive then '#' else '!'] + name + "|" + d;
    var bar := 1 + |name|;
    assert s[bar] == '|' && s[bar + 1..] == d && s[1..bar] == name;
    assert FindLast(s, '|') == Some(bar);
  }

  /** `^name` names the template `name`, unless `name` is itself in brackets. */
  lemma PartialText(name: string)
    requires !(HasPrefix(name, "[") && HasSuffix(name, "]"))
    ensures TemplateInfo("^" + name) == Some(TagInfo(Partial(false), name))
  {
    var content := "^" + name;
    assert content[0] == '^' && HasPrefix(content, "^") && !HasPrefix(content, "/");
    assert content[1..] == name;
  }

  /** `^[key]` takes the template's name from the value of `key`. */
  lemma IndirectPartialText(key: string)
    ensures TemplateInfo("^[" + key + "]") == Some(TagInfo(Partial(true), key))
  {
    var content := "^[" + key + "]";
    assert content[0] == '^' && HasPrefix(content, "^") && !HasPrefix(content, "/");
    var templateName := content[1..];
    assert templateName == "[" + key + "]";
    assert HasPrefix(templateName, "[") && HasSuffix(templateName, "]");
    assert templateName[1..|templateName| - 1] == key;
  }

  /** Whatever follows `//`, the tag is a comment with no name. */
  lemma CommentText(rest: string)
    ensures TemplateInfo("//" + rest) == Some(TagInfo(Comment, ""))
  {
    assert HasPrefix("//" + rest, "//");
  }

  /** A name that starts with none of `#`, `!`, `/`, `^` is a parameter named by the whole text. */
  lemma ParameterText(name: string)
    requires |name| > 0 && name[0] !in "#!/^"
    ensures TemplateInfo(name) == Some(TagInfo(Parameter, name))
  {
    assert !HasPrefix(name, "/") && !HasPrefix(name, "//") && !HasPrefix(name, "^");
  }

  lemma CloseText(name: string)
    requires !HasPrefix(name, "/")
    ensures TemplateInfo("/" + name) == Some(TagInfo(ScopeClose, name))
  {
    var s := "/" + name;
    assert s[0] == '/' && s[1..] == name;
    assert !HasPrefix(s, "//");
  }

  /**
    Conversely, every content that classifies, except a comment (whose text
    after `//` is dropped), is the canonical text of its classification, or
    that text without its trailing `|` when an opener had no delimiter.
   */
  lemma TagTextOfTemplateInfo(content: string)
    requires TemplateInfo(content).Some?
    requires !TemplateInfo(content).value.tagType.Comment?
    ensures var info := TemplateInfo(content).value;
      || content == TagText(info)
      || (info.tagType.ScopeOpen? && '|' !in content && content + "|" == TagText(info))
  {
    if content[0] == '#' || content[0] == '!' {
      OpenerOfText(content);
    } else if HasPrefix(content, "^") {
      PartialOfText(content);
    } else if HasPrefix(content, "/") {
      CloseOfText(content);
    }
  }

  lemma OpenerOfText(content: string)
    requires |content| > 0 && (content[0] == '#' || content[0] == '!')
    ensures var info := TemplateInfo(content).value;
      || content == TagText(info)
      || ('|' !in content && content + "|" == TagText(info))
  {
    var positive := content[0] == '#';
    var mark := [if positive then '#' else '!'];
    assert mark == [content[0]];
    match FindLast(content, '|')
    case None =>
      var info := TagInfo(ScopeOpen("", positive), content[1..]);
      assert TemplateInfo(content) == Some(info);
      assert TagText(info) == mark + content[1..] + "|" + "";
      assert content == mark + content[1..];
    case Some(bar) =>
      var info := TagInfo(ScopeOpen(content[bar + 1..], positive), content[1..bar]);
      assert TemplateInfo(content) == Some(info);
      assert TagText(info) == mark + content[1..bar] + "|" + content[bar + 1..];
      assert content == mark + content[1..bar] + "|" + content[bar + 1..];
  }

  lemma PartialOfText(content: string)
    requires |content| > 0 && content[0] == '^'
    ensures content == TagText(TemplateInfo(content).value)
  {
    var templateName := content[1..];
    assert content == "^" + templateName;
    if HasPrefix(templateName, "[") && HasSuffix(templateName, "]") {
      assert templateName[0] == '[' && templateName[|templateName| - 1] == ']';
      var name := templateName[1..|templateName| - 1];
      assert templateName == "[" + name + "]";
      assert content == "^[" + name + "]";
      IndirectPartialText(name);
    } else {
      PartialText(templateName);
    }
  }

  lemma CloseOfText(content: string)
    requires HasPrefix(content, "/") && !HasPrefix(content, "//")
    ensures content == TagText(TemplateInfo(content).value)
  {
    assert content[0] == '/';
    assert TemplateInfo(content) == Some(TagInfo(ScopeClose, content[1..]));
    assert content == "/" + content[1..];
  }
}
