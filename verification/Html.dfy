/**
 The HTML a post is compiled to.  The commands of post_fmt3_cmds.c are string
 concatenations; here their constants are tokens, so that `</p><ol>` is
 [Close("p"), Open("ol", [])], and `Serialize` gives back the strings.
 `WellNestedHtml` is about the characters alone: it finds the tags of a string
 and matches them, and `SerializedTagsMatch` ties it to the tokens.
 */
module Html {
  import opened Basics
  import opened Escape

  datatype Attr = Attr(name: string, value: string)

  datatype Tok =
    | Open(name: string, attrs: seq<Attr>)
    | Close(name: string)
    | Void(name: string, attrs: seq<Attr>)
    | Text(s: string)

  function Attrs(attrs: seq<Attr>): string
  {
    if attrs == [] then ""
    else Attrs(DropLast(attrs)) + " " + Last(attrs).name + "=\"" + Last(attrs).value + "\""
  }

  /** What stands between the angle brackets of a tag. */
  function Inner(t: Tok): string
    requires !t.Text?
  {
    match t
    case Open(name, attrs) => name + Attrs(attrs)
    case Close(name) => "/" + name
    case Void(name, attrs) => name + Attrs(attrs) + if attrs == [] then "/" else " /"
  }

  function TokString(t: Tok): string
  {
    if t.Text? then t.s else "<" + Inner(t) + ">"
  }

  function Serialize(toks: seq<Tok>): string
  {
    if toks == [] then "" else TokString(toks[0]) + Serialize(toks[1..])
  }

  // ----- Nesting of tokens -----------------------------------------------------------

  /** Matching against the stack of open elements; None once a tag mismatches. */
  function Match(stack: Option<seq<string>>, t: Tok): Option<seq<string>>
  {
    if stack.None? then None
    else
      match t
      case Open(name, _) => Some(stack.value + [name])
      case Close(name) =>
        if stack.value != [] && Last(stack.value) == name then Some(DropLast(stack.value)) else None
      case _ => stack
  }

  function MatchAll(stack: Option<seq<string>>, toks: seq<Tok>): Option<seq<string>>
    decreases toks
  {
    if toks == [] then stack else MatchAll(Match(stack, toks[0]), toks[1..])
  }

  lemma {:induction false} MatchConcat(stack: Option<seq<string>>, a: seq<Tok>, b: seq<Tok>)
    ensures MatchAll(stack, a + b) == MatchAll(MatchAll(stack, a), b)
    decreases a
  {
    if a == [] {
      assert a + b == b;
    } else {
      assert (a + b)[1..] == a[1..] + b;
      MatchConcat(Match(stack, a[0]), a[1..], b);
    }
  }

  lemma MatchOne(stack: Option<seq<string>>, a: Tok)
    ensures MatchAll(stack, [a]) == Match(stack, a)
  {
    assert [a][1..] == [];
  }

  lemma MatchTwo(stack: Option<seq<string>>, a: Tok, b: Tok)
    ensures MatchAll(stack, [a, b]) == Match(Match(stack, a), b)
  {
    assert [a, b][1..] == [b];
    MatchOne(Match(stack, a), b);
  }

  lemma MatchThree(stack: Option<seq<string>>, a: Tok, b: Tok, c: Tok)
    ensures MatchAll(stack, [a, b, c]) == Match(Match(Match(stack, a), b), c)
  {
    assert [a, b, c][1..] == [b, c];
    MatchTwo(Match(stack, a), b, c);
  }

  /** Tokens that leave any stack of open elements as it is. */
  ghost predicate Neutral(toks: seq<Tok>)
  {
    forall stack {:trigger MatchAll(Some(stack), toks)} :: MatchAll(Some(stack), toks) == Some(stack)
  }

  lemma NeutralConcat(a: seq<Tok>, b: seq<Tok>)
    requires Neutral(a) && Neutral(b)
    ensures Neutral(a + b)
  {
    forall stack ensures MatchAll(Some(stack), a + b) == Some(stack) {
      MatchConcat(Some(stack), a, b);
    }
  }

  lemma NeutralWrap(t: Tok, a: seq<Tok>, name: string)
    requires t.Open? && t.name == name && Neutral(a)
    ensures Neutral([t] + a + [Close(name)])
  {
    forall stack: seq<string> ensures MatchAll(Some(stack), [t] + a + [Close(name)]) == Some(stack) {
      MatchConcat(Some(stack), [t] + a, [Close(name)]);
      MatchConcat(Some(stack), [t], a);
      assert MatchAll(Some(stack), [t]) == Some(stack + [name]);
      assert DropLast(stack + [name]) == stack;
    }
  }

  lemma {:induction false} NeutralTexts(toks: seq<Tok>)
    requires forall i :: 0 <= i < |toks| ==> toks[i].Text? || toks[i].Void?
    ensures Neutral(toks)
  {
    if toks != [] {
      NeutralTexts(toks[1..]);
    }
  }

  // ----- Cleanness ----------------------------------------------------------------------

  predicate NameOk(name: string)
  {
    name != "" && forall i :: 0 <= i < |name| ==> IsAlnum(name[i])
  }

  predicate AttrOk(a: Attr)
  {
    NameOk(a.name) && TagFree(a.value)
  }

  /** No text or attribute value contains an angle bracket or a double quote. */
  predicate CleanTok(t: Tok)
  {
    match t
    case Text(s) => TagFree(s)
    case Close(name) => NameOk(name)
    case Open(name, attrs) => NameOk(name) && forall i :: 0 <= i < |attrs| ==> AttrOk(attrs[i])
    case Void(name, attrs) => NameOk(name) && forall i :: 0 <= i < |attrs| ==> AttrOk(attrs[i])
  }

  predicate Clean(toks: seq<Tok>)
  {
    forall i {:trigger CleanTok(toks[i])} :: 0 <= i < |toks| ==> CleanTok(toks[i])
  }

  lemma {:induction false} SerializeTexts(toks: seq<Tok>)
    requires Clean(toks) && forall i :: 0 <= i < |toks| ==> toks[i].Text?
    ensures TagFree(Serialize(toks))
  {
    if toks != [] {
      assert CleanTok(toks[0]);
      SerializeTexts(toks[1..]);
    }
  }

  lemma {:induction false} SerializeConcat(a: seq<Tok>, b: seq<Tok>)
    ensures Serialize(a + b) == Serialize(a) + Serialize(b)
  {
    if a == [] {
      assert a + b == b;
    } else {
      assert (a + b)[1..] == a[1..] + b;
      SerializeConcat(a[1..], b);
    }
  }

  // ----- Nesting of characters ------------------------------------------------------------

  /** The texts between `<` and the next `>`, in order; None if brackets do not
      alternate.  `tag` is the part of the current tag read so far. */
  function Tags(s: string, tag: Option<string>): Option<seq<string>>
  {
    if s == "" then
      if tag.None? then Some([]) else None
    else if tag.None? then
      if s[0] == '>' then None else Tags(s[1..], if s[0] == '<' then Some("") else None)
    else if s[0] == '<' then None
    else if s[0] != '>' then Tags(s[1..], Some(tag.value + [s[0]]))
    else
      match Tags(s[1..], None)
      case None => None
      case Some(tags) => Some([tag.value] + tags)
  }

  /** The element name of an opening tag: up to the first space. */
  function ElementName(tag: string): string
  {
    if tag == "" || tag[0] == ' ' then "" else [tag[0]] + ElementName(tag[1..])
  }

  function MatchTag(stack: Option<seq<string>>, tag: string): Option<seq<string>>
  {
    if stack.None? then None
    else if tag == "" then None
    else if tag[0] == '/' then
      if stack.value != [] && Last(stack.value) == tag[1..] then Some(DropLast(stack.value)) else None
    else if Last(tag) == '/' then stack
    else Some(stack.value + [ElementName(tag)])
  }

  function MatchTags(stack: Option<seq<string>>, tags: seq<string>): Option<seq<string>>
    decreases tags
  {
    if tags == [] then stack else MatchTags(MatchTag(stack, tags[0]), tags[1..])
  }

  /** Every tag of the string is closed by its own end tag, in nested order. */
  predicate WellNestedHtml(s: string)
  {
    match Tags(s, None)
    case None => false
    case Some(tags) => MatchTags(Some([]), tags) == Some([])
  }

  lemma {:induction false} TagsOfText(s: string, rest: string)
    requires TagFree(s)
    ensures Tags(s + rest, None) == Tags(rest, None)
  {
    if s == "" {
      assert s + rest == rest;
    } else {
      assert (s + rest)[1..] == s[1..] + rest;
      TagsOfText(s[1..], rest);
    }
  }

  predicate NoBrackets(s: string)
  {
    forall i :: 0 <= i < |s| ==> s[i] != '<' && s[i] != '>'
  }

  lemma {:induction false} TagsOfTag(tag: string, inner: string, rest: string)
    requires NoBrackets(inner)
    ensures Tags(inner + ">" + rest, Some(tag)) ==
            match Tags(rest, None) { case None => None case Some(tags) => Some([tag + inner] + tags) }
    decreases inner
  {
    var s := inner + ">" + rest;
    if inner == "" {
      assert s[1..] == rest;
      assert tag + inner == tag;
    } else {
      assert s[1..] == inner[1..] + ">" + rest;
      TagsOfTag(tag + [inner[0]], inner[1..], rest);
      assert tag + [inner[0]] + inner[1..] == tag + inner;
    }
  }

  lemma {:induction false} AttrsClean(attrs: seq<Attr>)
    requires forall i :: 0 <= i < |attrs| ==> AttrOk(attrs[i])
    ensures NoBrackets(Attrs(attrs))
    ensures attrs != [] ==> |Attrs(attrs)| > 1 && Attrs(attrs)[0] == ' ' && Last(Attrs(attrs)) == '"'
  {
    if attrs != [] {
      AttrsClean(DropLast(attrs));
      assert AttrOk(Last(attrs));
    }
  }

  lemma {:induction false} NameOfTag(name: string, rest: string)
    requires forall i :: 0 <= i < |name| ==> IsAlnum(name[i])
    requires rest == "" || rest[0] == ' '
    ensures ElementName(name + rest) == name
  {
    if name == "" {
      assert name + rest == rest;
    } else {
      assert (name + rest)[1..] == name[1..] + rest;
      NameOfTag(name[1..], rest);
    }
  }

  lemma OpenMatches(stack: Option<seq<string>>, t: Tok)
    requires CleanTok(t) && t.Open?
    ensures NoBrackets(Inner(t)) && MatchTag(stack, Inner(t)) == Match(stack, t)
  {
    var inner := Inner(t);
    AttrsClean(t.attrs);
    NameOfTag(t.name, Attrs(t.attrs));
    assert inner[0] == t.name[0];
    assert Last(inner) == if t.attrs == [] then Last(t.name) else Last(Attrs(t.attrs));
  }

  lemma VoidMatches(stack: Option<seq<string>>, t: Tok)
    requires CleanTok(t) && t.Void?
    ensures NoBrackets(Inner(t)) && MatchTag(stack, Inner(t)) == Match(stack, t)
  {
    AttrsClean(t.attrs);
    assert Inner(t)[0] == t.name[0];
  }

  lemma InnerMatches(stack: Option<seq<string>>, t: Tok)
    requires CleanTok(t) && !t.Text?
    ensures NoBrackets(Inner(t)) && MatchTag(stack, Inner(t)) == Match(stack, t)
  {
    match t
    case Close(name) =>
      assert Inner(t)[1..] == name;
    case Open(_, _) =>
      OpenMatches(stack, t);
    case Void(_, _) =>
      VoidMatches(stack, t);
  }

  /** One more tag in front. */
  lemma TagInFront(inner: string, rest: string)
    requires NoBrackets(inner) && Tags(rest, None).Some?
    ensures Tags("<" + inner + ">" + rest, None) == Some([inner] + Tags(rest, None).value)
  {
    var s := "<" + inner + ">" + rest;
    assert s[1..] == inner + ">" + rest;
    TagsOfTag("", inner, rest);
    assert "" + inner == inner;
  }

  /** The tags found among the characters match as the tokens do. */
  lemma {:induction false} SerializedTagsMatch(stack: Option<seq<string>>, toks: seq<Tok>)
    requires Clean(toks)
    ensures Tags(Serialize(toks), None).Some?
    ensures MatchTags(stack, Tags(Serialize(toks), None).value) == MatchAll(stack, toks)
    decreases toks
  {
    if toks != [] {
      var t, rest := toks[0], Serialize(toks[1..]);
      assert CleanTok(t);
      assert Clean(toks[1..]) by {
        assert forall i :: 0 <= i < |toks| - 1 ==> toks[1..][i] == toks[i + 1] && CleanTok(toks[i + 1]);
      }
      SerializedTagsMatch(Match(stack, t), toks[1..]);
      if t.Text? {
        TagsOfText(t.s, rest);
        assert Match(stack, t) == stack;
      } else {
        InnerMatches(stack, t);
        TagInFront(Inner(t), rest);
        var tags := Tags(rest, None).value;
        assert ([Inner(t)] + tags)[1..] == tags;
      }
    }
  }

  lemma MatchedTokensNest(toks: seq<Tok>)
    requires Clean(toks) && MatchAll(Some([]), toks) == Some([])
    ensures WellNestedHtml(Serialize(toks))
  {
    SerializedTagsMatch(Some([]), toks);
  }
}
