/**
 The disciplined posts are exactly those that compile to well-nested HTML.  The
 tokens of every piece of a post take the stack of open elements to where the
 discipline says, or mismatch where it finds something out of place; and a mismatch
 is never made good later.
 */
module Fmt3Nesting {
  import opened Basics
  import opened Escape
  import opened Html
  import opened MathMl
  import opened Posts
  import opened Fmt3
  import opened Fmt3Discipline

  // ----- Matching ----------------------------------------------------------------------------

  lemma {:induction false} MismatchStays(toks: seq<Tok>)
    ensures MatchAll(None, toks) == None
  {
    if toks != [] {
      MismatchStays(toks[1..]);
    }
  }

  lemma CleanConcat(a: seq<Tok>, b: seq<Tok>)
    requires Clean(a) && Clean(b)
    ensures Clean(a + b)
  {}

  lemma TagFreeParts(a: string, b: string)
    requires TagFree(a + b)
    ensures TagFree(a) && TagFree(b)
  {
    assert forall i :: 0 <= i < |a| ==> a[i] == (a + b)[i];
    assert forall i :: 0 <= i < |b| ==> b[i] == (a + b)[|a| + i];
  }

  lemma TagFreeTok(t: Tok)
    requires TagFree(TokString(t))
    ensures t.Text?
  {
    var s := TokString(t);
    assert s == "" || s[0] != '<';
  }

  /** Text in an attribute has no tags, so it is nothing but text. */
  lemma {:induction false} TextOnly(toks: seq<Tok>)
    requires TagFree(Serialize(toks))
    ensures Sound(toks)
  {
    if toks == [] {
      NeutralTexts(toks);
    } else {
      TagFreeParts(TokString(toks[0]), Serialize(toks[1..]));
      TagFreeTok(toks[0]);
      TextOnly(toks[1..]);
      SoundText(toks[0].s);
      hide Sound, TagFree;
      SoundConcat([toks[0]], toks[1..]);
      assert toks == [toks[0]] + toks[1..];
    }
  }

  /** What is printed inside an element: the end tag matches exactly if everything
      opened inside is closed, as blocks have other names. */
  lemma WrapMatches(open: seq<string>, t: Tok, toks: seq<Tok>, after: Option<seq<string>>)
    requires t.Open? && t.name !in BLOCKS
    requires MatchAll(Some(open + [t.name]), toks) == after && Above(open + [t.name], after)
    ensures MatchAll(Some(open), [t] + toks + [Close(t.name)])
         == if after == Some(open + [t.name]) then Some(open) else None
  {
    var inner := open + [t.name];
    MatchConcat(Some(open), [t] + toks, [Close(t.name)]);
    MatchConcat(Some(open), [t], toks);
    MatchOne(Some(open), t);
    MatchOne(after, Close(t.name));
    assert DropLast(inner) == open;
    if after.Some? && after.value != inner {
      var above := after.value[|inner|..];
      assert after.value == inner + above;
      assert above != [] && Last(after.value) == Last(above);
    }
  }

  /** What closes the paragraph around it and opens it again. */
  lemma BreakMatches(open: seq<string>, toks: seq<Tok>, after: Option<seq<string>>)
    requires InPara(open) ==> MatchAll(Some(DropLast(open)), toks) == after
    requires after.Some? ==> open != [] && after.value == DropLast(open)
    ensures MatchAll(Some(open), [Close("p")] + toks + [Open("p", [])])
         == if InPara(open) && after.Some? then Some(open) else None
  {
    MatchConcat(Some(open), [Close("p")] + toks, [Open("p", [])]);
    MatchConcat(Some(open), [Close("p")], toks);
    MatchOne(Some(open), Close("p"));
    if InPara(open) {
      MatchOne(after, Open("p", []));
      assert DropLast(open) + ["p"] == open;
    } else {
      MismatchStays(toks);
      MismatchStays([Open("p", [])]);
    }
  }

  // ----- Pieces without arguments ----------------------------------------------------------------

  /** The replacements for dashes and quotes. */
  lemma CharCvtTagFree(n: nat)
    ensures TagFree(CharCvt(DASHES, n)) && TagFree(CharCvt(OQUOTES, n)) && TagFree(CharCvt(CQUOTES, n))
  {
    assert n == 0 || n == 1 || n == 2 || n == 3 || CharCvt(DASHES, n) == "";
  }

  lemma SoundTexts(toks: seq<Tok>)
    requires Clean(toks) && forall i :: 0 <= i < |toks| ==> toks[i].Text? || toks[i].Void?
    ensures Sound(toks)
  {
    NeutralTexts(toks);
  }

  lemma SoundWrap(t: Tok, toks: seq<Tok>)
    requires t.Open? && CleanTok(t) && Sound(toks)
    ensures Sound([t] + toks + [Close(t.name)])
  {
    NeutralWrap(t, toks, t.name);
  }

  lemma SoundImage(src: string, alt: string)
    requires TagFree(src) && TagFree(alt)
    ensures Sound(Image(src, alt))
  {
    var attrs := [Attr("src", src), Attr("alt", alt)];
    assert AttrOk(attrs[0]) && AttrOk(attrs[1]);
    SoundTexts(Image(src, alt));
  }

  lemma SoundWrapAttr(name: string, attr: string, value: string, txt: seq<Tok>)
    requires NameOk(name) && NameOk(attr) && TagFree(value) && Sound(txt)
    ensures Sound([Open(name, [Attr(attr, value)])] + txt + [Close(name)])
  {
    var attrs := [Attr(attr, value)];
    assert AttrOk(attrs[0]);
    SoundWrap(Open(name, attrs), txt);
  }

  /** What is known of the tokens of an argument. */
  ghost predicate ArgFits(slot: Slot, base: seq<string>, toks: seq<Tok>, after: Option<seq<string>>)
  {
    match slot
    case Dropped => true
    case Attribute => TagFree(Serialize(toks))
    case Passed => Clean(toks) && MatchAll(Some(base), toks) == after
    case Inside(_) =>
      var around := Around(slot, base);
      Clean(toks) && MatchAll(Some(around), toks) == after && Above(around, after)
  }

  lemma PreformattedMatches(open: seq<string>, text: string)
    requires TagFree(text)
    ensures Clean(Preformatted(text))
    ensures MatchAll(Some(open), Preformatted(text)) == if InPara(open) then Some(open) else None
  {
    SoundTexts([Text(text)]);
    SoundElem("pre", [Text(text)]);
    BreakMatches(open, Elem("pre", [Text(text)]), if InPara(open) then Some(DropLast(open)) else None);
    assert Preformatted(text) == [Close("p")] + Elem("pre", [Text(text)]) + [Open("p", [])];
  }

  lemma CellMatches(open: seq<string>)
    ensures Clean([Close("td"), Open("td", [])])
    ensures MatchAll(Some(open), [Close("td"), Open("td", [])])
         == if open != [] && Last(open) == "td" then Some(open) else None
  {
    MatchTwo(Some(open), Close("td"), Open("td", []));
    assert open != [] ==> DropLast(open) + [Last(open)] == open;
  }

  lemma VerbatimMatches(open: seq<string>, text: string)
    requires TagFree(text)
    ensures Clean([Close("p"), Text(text), Open("p", [])])
    ensures MatchAll(Some(open), [Close("p"), Text(text), Open("p", [])])
         == if InPara(open) then Some(open) else None
  {
    SoundTexts([Text(text)]);
    BreakMatches(open, [Text(text)], if InPara(open) then Some(DropLast(open)) else None);
    assert [Close("p"), Text(text), Open("p", [])] == [Close("p")] + [Text(text)] + [Open("p", [])];
  }

  lemma TextMatches(t: Thing, nesting: int)
    requires !t.Command? && SimpleLegible(t)
    requires !t.Ampersand? && !t.Verbatim? && !t.ListingEnv? && !t.MathEnv?
    ensures Sound(SimpleToks(t, nesting))
  {
    match t {
      case Dash(n) => CharCvtTagFree(n);
      case OpenQuote(n) => CharCvtTagFree(n);
      case CloseQuote(n) => CharCvtTagFree(n);
      case _ =>
    }
    SoundTexts(SimpleToks(t, nesting));
  }

  lemma SimpleMatches(t: Thing, nesting: int, open: seq<string>)
    requires !t.Command? && SimpleLegible(t)
    ensures Clean(SimpleToks(t, nesting))
    ensures MatchAll(Some(open), SimpleToks(t, nesting)) == AfterSimple(t, open)
  {
    hide TagFree, MatchAll, Clean;
    match t
    case Ampersand =>
      CellMatches(open);
    case Verbatim(text) => VerbatimMatches(open, text);
    case ListingEnv(text) =>
      HtmlEscapeIsTagFree(text);
      PreformattedMatches(open, HtmlEscape(text));
    case MathEnv(m) =>
      MathSound(m);
      SoundElem("math", MathToks(m));
    case _ => TextMatches(t, nesting);
  }

  // ----- Environments -----------------------------------------------------------------------------

  lemma BeginMatches(open: seq<string>, e: Environ, nesting: int)
    ensures Clean(BeginToks(e, nesting))
    ensures MatchAll(Some(open), BeginToks(e, nesting)) == AfterBegin(e, nesting, open)
  {
    if e.EQuote? {
      MatchThree(Some(open), Close("p"), Open("blockquote", []), Open("p", []));
    } else if Nested(e, nesting) {
      MatchOne(Some(open), Open("table", []));
    } else {
      MatchTwo(Some(open), Close("p"), Open(ListElement(e), []));
      assert InPara(open) ==> DropLast(open) + [ListElement(e)] + [] == DropLast(open) + [ListElement(e)];
    }
  }

  lemma EndMatches(open: seq<string>, e: Environ, nesting: int)
    ensures Clean(EndToks(e, nesting))
    ensures MatchAll(Some(open), EndToks(e, nesting)) == AfterEnd(e, nesting, open)
  {
    if e.EQuote? {
      MatchThree(Some(open), Close("p"), Close("blockquote"), Open("p", []));
    } else if Nested(e, nesting) {
      MatchOne(Some(open), Close("table"));
      assert open != [] ==> DropLast(open) + [] == DropLast(open);
    } else {
      MatchTwo(Some(open), Close(ListElement(e)), Open("p", []));
    }
  }

  // ----- Commands ----------------------------------------------------------------------------------

  /** The element around an argument. */
  function Wrapper(c: Cmd, hasOpt: bool, opt: seq<Tok>): Tok
    requires ArgSlot(c, hasOpt).Inside? && !c.CTrow?
  {
    Open(ArgSlot(c, hasOpt).elements[0],
         if c.CAbbrev? then [Attr("title", Serialize(opt))]
         else if c.CTextTt? then [Attr("class", "tt")] else [])
  }

  lemma WrapperClean(c: Cmd, hasOpt: bool, opt: seq<Tok>)
    requires ArgSlot(c, hasOpt).Inside? && !c.CTrow? && (c.CAbbrev? ==> TagFree(Serialize(opt)))
    ensures var t := Wrapper(c, hasOpt, opt); CleanTok(t) && t.name !in BLOCKS
  {
    var attrs := Wrapper(c, hasOpt, opt).attrs;
    assert forall i :: 0 <= i < |attrs| ==> AttrOk(attrs[i]);
  }

  /** Commands with one element around their argument, before a paragraph is broken. */
  lemma WrappedMatches(c: Cmd, txt: seq<Tok>, hasOpt: bool, opt: seq<Tok>, base: seq<string>,
                       arg: Option<seq<string>>)
    requires ArgSlot(c, hasOpt).Inside? && !c.CTrow? && ArgFits(ArgSlot(c, hasOpt), base, txt, arg)
    requires c.CAbbrev? ==> TagFree(Serialize(opt))
    ensures var t := Wrapper(c, hasOpt, opt);
            var toks := [t] + txt + [Close(t.name)];
            Clean(toks) && MatchAll(Some(base), toks) == AfterArg(ArgSlot(c, hasOpt), base, arg)
  {
    var t := Wrapper(c, hasOpt, opt);
    WrapperClean(c, hasOpt, opt);
    CleanConcat([t], txt);
    CleanConcat([t] + txt, [Close(t.name)]);
    WrapMatches(base, t, txt, arg);
  }

  lemma ItemMatches(txt: seq<Tok>, hasOpt: bool, opt: seq<Tok>, env: Env, open: seq<string>,
                    after: Option<seq<string>>, arg: Option<seq<string>>)
    requires ArgFits(ArgSlot(CItem, hasOpt), open, txt, arg)
    requires ArgFits(OptSlot(CItem, hasOpt), open, opt, after)
    ensures Clean(CmdToks(env, CItem, txt, hasOpt, opt))
    ensures MatchAll(Some(open), CmdToks(env, CItem, txt, hasOpt, opt)) == AfterCmd(CItem, hasOpt, open, after, arg)
  {
    WrappedMatches(CItem, txt, hasOpt, opt, open, arg);
    if hasOpt {
      WrapMatches(open, Open("dt", []), opt, after);
      CleanConcat([Open("dt", [])], opt);
      CleanConcat([Open("dt", [])] + opt, [Close("dt")]);
      CleanConcat(Elem("dt", opt), Elem("dd", txt));
      MatchConcat(Some(open), Elem("dt", opt), Elem("dd", txt));
      MismatchStays(Elem("dd", txt));
    }
  }

  lemma RowMatches(env: Env, txt: seq<Tok>, open: seq<string>, arg: Option<seq<string>>)
    requires ArgFits(ArgSlot(CTrow, false), open, txt, arg)
    ensures Clean(CmdToks(env, CTrow, txt, false, []))
    ensures MatchAll(Some(open), CmdToks(env, CTrow, txt, false, [])) == AfterCmd(CTrow, false, open, None, arg)
  {
    assert open + ["tr"] + ["td"] == open + ["tr", "td"];
    WrapMatches(open + ["tr"], Open("td", []), txt, arg);
    var row := MatchAll(Some(open + ["tr"]), Elem("td", txt));
    WrapMatches(open, Open("tr", []), Elem("td", txt), row);
    CleanConcat([Open("td", [])], txt);
    CleanConcat([Open("td", [])] + txt, [Close("td")]);
    CleanConcat([Open("tr", [])], Elem("td", txt));
    CleanConcat([Open("tr", [])] + Elem("td", txt), [Close("tr")]);
  }

  lemma HeadingMatches(env: Env, c: Cmd, txt: seq<Tok>, open: seq<string>, arg: Option<seq<string>>)
    requires c.CSection? || c.CSubsection? || c.CSubsubsection?
    requires ArgFits(ArgSlot(c, false), Base(c, open), txt, arg)
    ensures Clean(CmdToks(env, c, txt, false, []))
    ensures MatchAll(Some(open), CmdToks(env, c, txt, false, [])) == AfterCmd(c, false, open, None, arg)
  {
    var base := Base(c, open);
    var t := Wrapper(c, false, []);
    WrappedMatches(c, txt, false, [], base, arg);
    BreakMatches(open, Elem(t.name, txt),
                 if InPara(open) then AfterArg(ArgSlot(c, false), base, arg) else None);
    CleanConcat([Close("p")], Elem(t.name, txt));
    CleanConcat([Close("p")] + Elem(t.name, txt), [Open("p", [])]);
  }

  /** The text of a link: the optional argument, or else the argument, which is in an
      attribute as well. */
  ghost predicate CaptionFits(txt: seq<Tok>, hasOpt: bool, opt: seq<Tok>, open: seq<string>,
                              after: Option<seq<string>>)
  {
    var body := if hasOpt then opt else txt;
    && Clean(body) && MatchAll(Some(open + ["a"]), body) == after && Above(open + ["a"], after)
  }

  lemma LinkMatches(open: seq<string>, href: string, body: seq<Tok>, after: Option<seq<string>>)
    requires TagFree(href) && Clean(body)
    requires MatchAll(Some(open + ["a"]), body) == after && Above(open + ["a"], after)
    ensures Clean(Link(href, body))
    ensures MatchAll(Some(open), Link(href, body)) == if after == Some(open + ["a"]) then Some(open) else None
  {
    var attrs := [Attr("href", href)];
    assert AttrOk(attrs[0]);
    var t := Open("a", attrs);
    WrapMatches(open, t, body, after);
    CleanConcat([t], body);
    CleanConcat([t] + body, [Close("a")]);
  }

  lemma IconLinkMatches(open: seq<string>, href: string, icon: string, alt: string, body: seq<Tok>,
                        after: Option<seq<string>>)
    requires TagFree(href) && TagFree(icon) && TagFree(alt) && Clean(body)
    requires MatchAll(Some(open + ["a"]), body) == after && Above(open + ["a"], after)
    ensures Clean(IconLink(href, icon, alt, body))
    ensures MatchAll(Some(open), IconLink(href, icon, alt, body))
         == if after == Some(open + ["a"]) then Some(open) else None
  {
    var front := Image(icon, alt) + [Text("&nbsp;")];
    SoundImage(icon, alt);
    SoundTexts([Text("&nbsp;")]);
    SoundConcat(Image(icon, alt), [Text("&nbsp;")]);
    MatchConcat(Some(open + ["a"]), front, body);
    CleanConcat(front, body);
    LinkMatches(open, href, front + body, after);
  }

  /** Commands whose only body is the text of a link. */
  predicate MakesLink(c: Cmd)
  {
    c.CBug? || c.CLink? || c.CPhotoLink? || c.CPost? || c.CTagLink? || c.CWiki?
  }

  lemma UrlsTagFree(env: Env, s: string)
    requires CleanEnv(env) && TagFree(s)
    ensures TagFree(env.bugUrl + "/" + s) && TagFree(env.wikiUrl + "/" + s) && TagFree(env.photoUrl + "/" + s)
    ensures TagFree(env.baseUrl + "/?p=" + s) && TagFree(env.baseUrl + "/?tag=" + s)
    ensures TagFree(env.baseUrl + "/bug.png") && TagFree(env.baseUrl + "/wiki.png")
    ensures TagFree("bug #") && TagFree("Wikipedia article:")
  {}

  lemma UrlMatches(env: Env, c: Cmd, txt: seq<Tok>, hasOpt: bool, opt: seq<Tok>, open: seq<string>,
                   after: Option<seq<string>>)
    requires CleanEnv(env) && MakesLink(c) && (c.CBug? ==> !hasOpt) && TagFree(Serialize(txt))
    requires CaptionFits(txt, hasOpt, opt, open, after) && NotTruncated(env, c, txt, hasOpt, opt)
    ensures Clean(CmdToks(env, c, txt, hasOpt, opt))
    ensures MatchAll(Some(open), CmdToks(env, c, txt, hasOpt, opt))
         == if after == Some(open + ["a"]) then Some(open) else None
  {
    hide TagFree, MatchAll, Clean, Serialize, Above, IconLink, Link;
    var s, body := Serialize(txt), if hasOpt then opt else txt;
    UrlsTagFree(env, s);
    match c
    case CBug => IconLinkMatches(open, env.bugUrl + "/" + s, env.baseUrl + "/bug.png", "bug #", body, after);
    case CWiki =>
      IconLinkMatches(open, env.wikiUrl + "/" + s, env.baseUrl + "/wiki.png", "Wikipedia article:", body, after);
    case CLink => LinkMatches(open, s, body, after);
    case CPhotoLink => LinkMatches(open, env.photoUrl + "/" + s, body, after);
    case CPost => LinkMatches(open, env.baseUrl + "/?p=" + s, body, after);
    case CTagLink => LinkMatches(open, env.baseUrl + "/?tag=" + s, body, after);
  }

  lemma LinkCmdMatches(env: Env, c: Cmd, txt: seq<Tok>, hasOpt: bool, opt: seq<Tok>, open: seq<string>,
                       after: Option<seq<string>>, arg: Option<seq<string>>)
    requires CleanEnv(env) && MakesLink(c) && (c.CBug? ==> !hasOpt)
    requires ArgFits(ArgSlot(c, hasOpt), open, txt, arg) && ArgFits(OptSlot(c, hasOpt), open, opt, after)
    requires NotTruncated(env, c, txt, hasOpt, opt)
    ensures Clean(CmdToks(env, c, txt, hasOpt, opt))
    ensures MatchAll(Some(open), CmdToks(env, c, txt, hasOpt, opt)) == AfterCmd(c, hasOpt, open, after, arg)
  {
    hide TagFree, CmdToks, NotTruncated;
    TextOnly(txt);
    assert MatchAll(Some(open + ["a"]), txt) == Some(open + ["a"]);
    UrlMatches(env, c, txt, hasOpt, opt, open, if hasOpt then after else Some(open + ["a"]));
  }

  lemma ImageMatches(env: Env, c: Cmd, txt: seq<Tok>, hasOpt: bool, opt: seq<Tok>, open: seq<string>)
    requires CleanEnv(env) && (c.CImg? || c.CPhoto?)
    requires TagFree(Serialize(txt)) && if hasOpt then TagFree(Serialize(opt)) else opt == []
    ensures Clean(CmdToks(env, c, txt, hasOpt, opt))
    ensures MatchAll(Some(open), CmdToks(env, c, txt, hasOpt, opt)) == AfterCmd(c, hasOpt, open, None, None)
  {
    assert TagFree(Serialize(opt));
    hide TagFree, MatchAll, Clean;
    UrlsTagFree(env, Serialize(txt));
    SoundImage(if c.CImg? then Serialize(txt) else env.photoUrl + "/" + Serialize(txt), Serialize(opt));
  }

  /** Commands that print no argument. */
  lemma SymbolMatches(env: Env, c: Cmd, txt: seq<Tok>, open: seq<string>)
    requires ArgSlot(c, false).Dropped?
    ensures Clean(CmdToks(env, c, txt, false, []))
    ensures MatchAll(Some(open), CmdToks(env, c, txt, false, [])) == AfterCmd(c, false, open, None, None)
  {
    SoundTexts(CmdToks(env, c, txt, false, []));
  }

  lemma AbbrevMatches(env: Env, txt: seq<Tok>, hasOpt: bool, opt: seq<Tok>, open: seq<string>,
                      after: Option<seq<string>>, arg: Option<seq<string>>)
    requires ArgFits(ArgSlot(CAbbrev, hasOpt), open, txt, arg) && ArgFits(OptSlot(CAbbrev, hasOpt), open, opt, after)
    ensures Clean(CmdToks(env, CAbbrev, txt, hasOpt, opt))
    ensures MatchAll(Some(open), CmdToks(env, CAbbrev, txt, hasOpt, opt))
         == AfterCmd(CAbbrev, hasOpt, open, after, arg)
  {
    hide TagFree, MatchAll, Clean, Serialize;
    if hasOpt {
      WrappedMatches(CAbbrev, txt, hasOpt, opt, open, arg);
    } else {
      TextOnly(txt);
      SoundWrapAttr("abbr", "title", Serialize(txt), txt);
    }
  }

  lemma DegreeMatches(env: Env, txt: seq<Tok>, open: seq<string>, arg: Option<seq<string>>)
    requires ArgFits(Passed, open, txt, arg)
    ensures Clean(CmdToks(env, CDegree, txt, false, []))
    ensures MatchAll(Some(open), CmdToks(env, CDegree, txt, false, [])) == AfterCmd(CDegree, false, open, None, arg)
  {
    var sign := [Text("\U{C2}\U{B0}")];
    SoundTexts(sign);
    CleanConcat(sign, txt);
    MatchConcat(Some(open), sign, txt);
  }

  lemma ListingMatches(env: Env, txt: seq<Tok>, hasOpt: bool, opt: seq<Tok>, open: seq<string>)
    requires CleanEnv(env) && TagFree(Serialize(txt))
    ensures Clean(CmdToks(env, CListing, txt, hasOpt, opt))
    ensures MatchAll(Some(open), CmdToks(env, CListing, txt, hasOpt, opt))
         == AfterCmd(CListing, hasOpt, open, None, None)
  {
    ListingTextTagFree(env, Serialize(txt));
    PreformattedMatches(open, ListingText(env, Serialize(txt)));
  }

  lemma FontMatches(env: Env, c: Cmd, txt: seq<Tok>, open: seq<string>, arg: Option<seq<string>>)
    requires c.CEmph? || c.CTextBf? || c.CTextIt? || c.CTextTt?
    requires ArgFits(ArgSlot(c, false), open, txt, arg)
    ensures Clean(CmdToks(env, c, txt, false, []))
    ensures MatchAll(Some(open), CmdToks(env, c, txt, false, [])) == AfterCmd(c, false, open, None, arg)
  {
    WrappedMatches(c, txt, false, [], open, arg);
  }

  /** An argument that is not printed inside something does not matter. */
  lemma AfterCmdIgnores(c: Cmd, hasOpt: bool, open: seq<string>, after: Option<seq<string>>, arg: Option<seq<string>>)
    ensures !hasOpt || OptSlot(c, hasOpt).Dropped? || OptSlot(c, hasOpt).Attribute? ==>
              AfterCmd(c, hasOpt, open, after, arg) == AfterCmd(c, hasOpt, open, None, arg)
    ensures ArgSlot(c, hasOpt).Dropped? || ArgSlot(c, hasOpt).Attribute? ==>
              AfterCmd(c, hasOpt, open, after, arg) == AfterCmd(c, hasOpt, open, after, None)
  {}

  /** Every command but begin and end, given what is known of its arguments. */
  lemma CmdMatches(env: Env, c: Cmd, txt: seq<Tok>, hasOpt: bool, opt: seq<Tok>, open: seq<string>,
                   after: Option<seq<string>>, arg: Option<seq<string>>)
    requires CleanEnv(env) && !c.CBegin? && !c.CEnd? && (if hasOpt then MayTakeOpt(c) else opt == [])
    requires ArgFits(ArgSlot(c, hasOpt), Base(c, open), txt, arg)
    requires ArgFits(OptSlot(c, hasOpt), Base(c, open), opt, after)
    requires NotTruncated(env, c, txt, hasOpt, opt)
    ensures Clean(CmdToks(env, c, txt, hasOpt, opt))
    ensures MatchAll(Some(open), CmdToks(env, c, txt, hasOpt, opt)) == AfterCmd(c, hasOpt, open, after, arg)
  {
    hide TagFree, NotTruncated, Clean, MatchAll, CleanEnv, CmdToks, AfterCmd;
    AfterCmdIgnores(c, hasOpt, open, after, arg);
    AfterCmdIgnores(c, hasOpt, open, None, arg);
    if c.CListing? {
      ListingMatches(env, txt, hasOpt, opt, open);
    } else if BreaksPara(c) {
      HeadingMatches(env, c, txt, open, arg);
    } else if MakesLink(c) {
      LinkCmdMatches(env, c, txt, hasOpt, opt, open, after, arg);
    } else if c.CAbbrev? {
      AbbrevMatches(env, txt, hasOpt, opt, open, after, arg);
    } else if c.CItem? {
      ItemMatches(txt, hasOpt, opt, env, open, after, arg);
    } else if c.CTrow? {
      RowMatches(env, txt, open, arg);
    } else if c.CDegree? {
      DegreeMatches(env, txt, open, arg);
    } else if ArgSlot(c, hasOpt).Inside? {
      FontMatches(env, c, txt, open, arg);
    } else if c.CImg? || c.CPhoto? {
      ImageMatches(env, c, txt, hasOpt, opt, open);
    } else {
      SymbolMatches(env, c, txt, open);
    }
  }

  // ----- The induction ------------------------------------------------------------------------------

  lemma {:induction false} ThingMatches(env: Env, t: Thing, st: State, open: seq<string>)
    requires CleanEnv(env) && LegibleThing(env, t, st) && ThingOut(env, t, st).Ok?
    ensures Clean(ThingOut(env, t, st).value.toks)
    ensures MatchAll(Some(open), ThingOut(env, t, st).value.toks) == AfterThing(env, t, st, open)
    decreases t, 1
  {
    if !t.Command? {
      SimpleMatches(t, st.textttNesting, open);
    } else if FindCmd(t.name).None? {
      SoundTexts([Text("[INVAL CMD '" + t.name + "']")]);
    } else {
      var c := FindCmd(t.name).value;
      var opt := ArgOut(env, t.opt, st).value;
      if c.CBegin? || c.CEnd? {
        EnvironMatches(env, c.CBegin?, t.arg, opt.st, open);
      } else {
        CommandMatches(env, t, c, st, open);
      }
    }
  }

  /** What begin and end print. */
  function EnvironOut(env: Env, begin: bool, arg: Arg, st: State): Out
    requires ArgOut(env, arg, st).Ok?
  {
    var out := ArgOut(env, arg, st).value;
    if begin then Begin(out.toks, out.st) else End(out.toks, out.st)
  }

  lemma {:induction false} EnvironMatches(env: Env, begin: bool, arg: Arg, st: State, open: seq<string>)
    requires CleanEnv(env) && ArgOut(env, arg, st).Ok?
    requires FindEnviron(Serialize(ArgOut(env, arg, st).value.toks)).None? ==> LegibleArg(env, arg, st, Passed)
    ensures Clean(EnvironOut(env, begin, arg, st).toks)
    ensures MatchAll(Some(open), EnvironOut(env, begin, arg, st).toks) == AfterEnviron(env, begin, arg, st, open)
    decreases arg, 4
  {
    var out := ArgOut(env, arg, st).value;
    var found := FindEnviron(Serialize(out.toks));
    if found.None? {
      TextFits(env, arg, st, open);
      InvalidMatches(out.toks, open);
    } else if begin {
      BeginMatches(open, found.value, out.st.tableNesting);
    } else {
      EndMatches(open, found.value, Fmt3.Count(out.st, found.value, -1).tableNesting);
    }
  }

  lemma InvalidMatches(txt: seq<Tok>, open: seq<string>)
    requires Clean(txt)
    ensures Clean(InvalidEnviron(txt))
    ensures MatchAll(Some(open), InvalidEnviron(txt)) == MatchAll(Some(open), txt)
  {
    var front, back := [Text("[INVAL ENVIRON '")], [Text("']")];
    SoundTexts(front);
    SoundTexts(back);
    CleanConcat(front, txt);
    CleanConcat(front + txt, back);
    MatchConcat(Some(open), front + txt, back);
    MatchConcat(Some(open), front, txt);
    var after := MatchAll(Some(open), txt);
    if after.None? {
      MismatchStays(back);
    }
  }

  /** The elements of the commands are no blocks. */
  lemma SlotFloors(c: Cmd, hasOpt: bool, base: seq<string>)
    ensures ArgSlot(c, hasOpt).Inside? ==> Floor(Around(ArgSlot(c, hasOpt), base))
    ensures OptSlot(c, hasOpt).Inside? ==> Floor(Around(OptSlot(c, hasOpt), base))
  {}

  lemma {:induction false} CommandMatches(env: Env, t: Thing, c: Cmd, st: State, open: seq<string>)
    requires CleanEnv(env) && t.Command? && FindCmd(t.name) == Some(c) && !c.CBegin? && !c.CEnd?
    requires LegibleThing(env, t, st) && ThingOut(env, t, st).Ok?
    ensures Clean(ThingOut(env, t, st).value.toks)
    ensures MatchAll(Some(open), ThingOut(env, t, st).value.toks) == AfterThing(env, t, st, open)
    decreases t, 0
  {
    hide CmdToks, AfterCmd, ArgSlot, OptSlot, MatchAll, Clean, FindCmd, NotTruncated, CleanEnv;
    var hasOpt, base := Given(t.opt), Base(c, open);
    var opt := ArgOut(env, t.opt, st).value;
    var arg := ArgOut(env, t.arg, opt.st).value;
    SlotFloors(c, hasOpt, base);
    ArgMatches(env, t.opt, st, OptSlot(c, hasOpt), base);
    ArgMatches(env, t.arg, opt.st, ArgSlot(c, hasOpt), base);
    if !hasOpt {
      NotGivenOut(env, t.opt, st);
    }
    CmdMatches(env, c, arg.toks, hasOpt, opt.toks, open,
               AfterText(env, t.opt, st, Around(OptSlot(c, hasOpt), base)),
               AfterText(env, t.arg, opt.st, Around(ArgSlot(c, hasOpt), base)));
  }

  lemma NotGivenOut(env: Env, a: Arg, st: State)
    requires !Given(a)
    ensures ArgOut(env, a, st).Ok? && ArgOut(env, a, st).value.toks == []
  {
    if a.Braced? {
      assert ParagraphOut(env, a.p, st) == ThingOut(env, a.p.t, st);
    }
  }

  lemma {:induction false} ArgMatches(env: Env, a: Arg, st: State, slot: Slot, base: seq<string>)
    requires CleanEnv(env) && ArgOut(env, a, st).Ok? && LegibleArg(env, a, st, slot)
    requires slot.Inside? ==> Floor(Around(slot, base))
    ensures ArgFits(slot, base, ArgOut(env, a, st).value.toks, AfterText(env, a, st, Around(slot, base)))
    decreases a, 4
  {
    if slot.Passed? || slot.Inside? {
      TextFits(env, a, st, Around(slot, base));
    }
    if slot.Inside? {
      var around := Around(slot, base);
      assert around[|around|..] == [];
      TextAbove(env, a, st, around, around);
    }
  }

  lemma {:induction false} TextFits(env: Env, a: Arg, st: State, open: seq<string>)
    requires CleanEnv(env) && ArgOut(env, a, st).Ok? && LegibleArg(env, a, st, Passed)
    ensures Clean(ArgOut(env, a, st).value.toks)
    ensures MatchAll(Some(open), ArgOut(env, a, st).value.toks) == AfterText(env, a, st, open)
    decreases a, 3
  {
    if a.Braced? {
      ParagraphMatches(env, a.p, st, open);
    }
  }

  lemma {:induction false} ParagraphMatches(env: Env, p: Paragraph, st: State, open: seq<string>)
    requires CleanEnv(env) && LegibleParagraph(env, p, st) && ParagraphOut(env, p, st).Ok?
    ensures Clean(ParagraphOut(env, p, st).value.toks)
    ensures MatchAll(Some(open), ParagraphOut(env, p, st).value.toks) == AfterParagraph(env, p, st, open)
    decreases p, 2
  {
    hide AfterThing, ThingOut, LegibleThing, MatchAll, Clean, CleanEnv;
    match p
    case Start(t) => ThingMatches(env, t, st, open);
    case Append(q, t) =>
      var a := ParagraphOut(env, q, st).value;
      var b := ThingOut(env, t, a.st).value;
      ParagraphMatches(env, q, st, open);
      var mid := AfterParagraph(env, q, st, open);
      ThingMatches(env, t, a.st, if mid.Some? then mid.value else []);
      MatchConcat(Some(open), a.toks, b.toks);
      CleanConcat(a.toks, b.toks);
      if mid.None? {
        MismatchStays(b.toks);
      }
  }

  lemma WrapParagraphMatches(open: seq<string>, toks: seq<Tok>, after: Option<seq<string>>)
    requires Clean(toks) && MatchAll(Some(open + ["p"]), toks) == after
    ensures Clean(WrapParagraph(toks))
    ensures MatchAll(Some(open), WrapParagraph(toks))
         == if after.Some? && InPara(after.value) then Some(DropLast(after.value)) else None
  {
    var back := [Close("p"), Text("\n")];
    CleanConcat([Open("p", [])], toks);
    CleanConcat([Open("p", [])] + toks, back);
    MatchConcat(Some(open), [Open("p", [])] + toks, back);
    MatchConcat(Some(open), [Open("p", [])], toks);
    MatchOne(Some(open), Open("p", []));
    MatchTwo(after, Close("p"), Text("\n"));
  }

  lemma {:induction false} ParagraphsMatch(env: Env, ps: Paragraphs, st: State, open: seq<string>)
    requires CleanEnv(env) && LegibleParagraphs(env, ps, st) && ParagraphsOut(env, ps, st).Ok?
    ensures Clean(ParagraphsOut(env, ps, st).value.toks)
    ensures MatchAll(Some(open), ParagraphsOut(env, ps, st).value.toks) == AfterParagraphs(env, ps, st, open)
  {
    match ps
    case Single(p) =>
      ParagraphMatches(env, p, st, open + ["p"]);
      WrapParagraphMatches(open, ParagraphOut(env, p, st).value.toks, AfterParagraph(env, p, st, open + ["p"]));
    case Next(qs, p) =>
      ParagraphsMatch(env, qs, st, open);
      var a := ParagraphsOut(env, qs, st).value;
      var b := ParagraphOut(env, p, a.st).value;
      var mid := AfterParagraphs(env, qs, st, open);
      var at := (if mid.Some? then mid.value else []) + ["p"];
      ParagraphMatches(env, p, a.st, at);
      WrapParagraphMatches(if mid.Some? then mid.value else [], b.toks, AfterParagraph(env, p, a.st, at));
      MatchConcat(Some(open), a.toks, WrapParagraph(b.toks));
      CleanConcat(a.toks, WrapParagraph(b.toks));
      if mid.None? {
        MismatchStays(WrapParagraph(b.toks));
      }
  }

  /** The theorem: the text a legible post compiles to is well-nested HTML exactly if
      the post is disciplined. */
  lemma CompiledPostNests(env: Env, doc: Document)
    requires CleanEnv(env) && Legible(env, doc) && Compile(env, doc).Ok?
    ensures WellNestedHtml(Serialize(Compile(env, doc).value.toks)) <==> Disciplined(env, doc)
  {
    var toks := Compile(env, doc).value.toks;
    if doc.Document? {
      ParagraphsMatch(env, doc.ps, INITIAL, []);
    }
    SerializedTagsMatch(Some([]), toks);
  }

  // ----- Consequences --------------------------------------------------------------------------------

  /** A heading or listing right inside an element is out of place, whatever the
      element and wherever it stands. */
  lemma BreakInsideElement(env: Env, t: Thing, inner: Thing, st: State, open: seq<string>)
    requires t.Command? && FindCmd(t.name).Some? && ArgSlot(FindCmd(t.name).value, Given(t.opt)).Inside?
    requires t.arg == Braced(Start(inner)) && inner.Command?
    requires FindCmd(inner.name).Some? && BreaksPara(FindCmd(inner.name).value)
    ensures AfterThing(env, t, st, open) == None
  {
    hide FindCmd;
    var c, hasOpt := FindCmd(t.name).value, Given(t.opt);
    var opt := ArgOut(env, t.opt, st);
    if opt.Ok? {
      var around := Around(ArgSlot(c, hasOpt), Base(c, open));
      SlotFloors(c, hasOpt, Base(c, open));
      assert !InPara(around);
      assert AfterThing(env, inner, opt.value.st, around) == None;
      assert AfterText(env, t.arg, opt.value.st, around) == AfterThing(env, inner, opt.value.st, around);
    }
  }

  /** A legible post of one such command never nests. */
  lemma BreakInsideElementMismatches(env: Env, t: Thing, inner: Thing)
    requires t.Command? && FindCmd(t.name).Some? && ArgSlot(FindCmd(t.name).value, Given(t.opt)).Inside?
    requires t.arg == Braced(Start(inner)) && inner.Command?
    requires FindCmd(inner.name).Some? && BreaksPara(FindCmd(inner.name).value)
    requires var doc := Document(Single(Start(t)));
             CleanEnv(env) && Legible(env, doc) && Compile(env, doc).Ok?
    ensures !WellNestedHtml(Serialize(Compile(env, Document(Single(Start(t)))).value.toks))
  {
    BreakInsideElement(env, t, inner, INITIAL, ["p"]);
    CompiledPostNests(env, Document(Single(Start(t))));
    assert [] + ["p"] == ["p"];
    assert AfterParagraph(env, Start(t), INITIAL, ["p"]) == AfterThing(env, t, INITIAL, ["p"]);
    assert AfterParagraphs(env, Single(Start(t)), INITIAL, []) == AfterWhole(env, Start(t), INITIAL, []);
  }

  lemma WordArg(env: Env, s: string, st: State, open: seq<string>)
    ensures ArgOut(env, Braced(Start(Word(s))), st) == Ok(Out([Text(s)], st))
    ensures Serialize([Text(s)]) == s
    ensures AfterText(env, Braced(Start(Word(s))), st, open) == Some(open)
  {
    assert ParagraphOut(env, Start(Word(s)), st) == ThingOut(env, Word(s), st);
    assert AfterParagraph(env, Start(Word(s)), st, open) == AfterThing(env, Word(s), st, open);
    assert Serialize([Text(s)]) == s + "";
  }

  function Delimiter(name: string, e: string): Thing
  {
    Command(name, NoArg, Braced(Start(Word(e))))
  }

  lemma DelimiterAfter(env: Env, begin: bool, e: string, st: State, open: seq<string>)
    requires FindEnviron(e).Some?
    ensures var found := FindEnviron(e).value;
            var t := Delimiter(if begin then "begin" else "end", e);
            && ThingOut(env, t, st) == Ok(if begin then Begin([Text(e)], st) else End([Text(e)], st))
            && AfterThing(env, t, st, open)
            == if begin then AfterBegin(found, st.tableNesting, open)
               else AfterEnd(found, Fmt3.Count(st, found, -1).tableNesting, open)
  {
    var t := Delimiter(if begin then "begin" else "end", e);
    WordArg(env, e, st, open);
    assert ArgOut(env, NoArg, st) == Ok(Out([], st));
    assert FindCmd("begin") == Some(CBegin) && FindCmd("end") == Some(CEnd);
    assert AfterThing(env, t, st, open) == AfterEnviron(env, begin, t.arg, st, open);
  }

  /** A paragraph of one thing. */
  lemma OneThing(env: Env, t: Thing, st: State, open: seq<string>)
    ensures AfterParagraph(env, Start(t), st, open) == AfterThing(env, t, st, open)
    ensures ParagraphOut(env, Start(t), st) == ThingOut(env, t, st)
  {}

  const QUOTED: seq<string> := ["blockquote", "p"]

  lemma QuoteOpens(env: Env)
    ensures AfterThing(env, Delimiter("begin", "quote"), INITIAL, ["p"]) == Some(QUOTED)
    ensures ThingOut(env, Delimiter("begin", "quote"), INITIAL).Ok?
    ensures ThingOut(env, Delimiter("begin", "quote"), INITIAL).value.st == INITIAL
  {
    assert FindEnviron("quote") == Some(EQuote);
    DelimiterAfter(env, true, "quote", INITIAL, ["p"]);
    hide FindCmd, AfterThing, ThingOut;
    WordArg(env, "quote", INITIAL, []);
    assert DropLast(["p"]) + ["blockquote"] + ["p"] == QUOTED;
  }

  lemma QuoteCloses(env: Env)
    ensures AfterThing(env, Delimiter("end", "quote"), INITIAL, QUOTED) == Some(["p"])
  {
    assert FindEnviron("quote") == Some(EQuote);
    DelimiterAfter(env, false, "quote", INITIAL, QUOTED);
    hide FindCmd, AfterThing, ThingOut;
    assert DropLast(QUOTED) == ["blockquote"] && DropLast(["blockquote"]) + ["p"] == ["p"];
  }

  /** Two paragraphs of one thing each, of which the second closes what the first
      leaves open. */
  lemma TwoParagraphs(env: Env, a: Thing, b: Thing, mid: seq<string>)
    requires AfterThing(env, a, INITIAL, ["p"]) == Some(mid + ["p"])
    requires ThingOut(env, a, INITIAL).Ok? && ThingOut(env, a, INITIAL).value.st == INITIAL
    requires AfterThing(env, b, INITIAL, mid + ["p"]) == Some(["p"])
    ensures Disciplined(env, Document(Next(Single(Start(a)), Start(b))))
  {
    OneThing(env, a, INITIAL, ["p"]);
    OneThing(env, b, INITIAL, mid + ["p"]);
    hide AfterThing, ThingOut, AfterParagraph, ParagraphOut;
    assert [] + ["p"] == ["p"] && DropLast(mid + ["p"]) == mid && DropLast(["p"]) == [];
    assert AfterParagraphs(env, Single(Start(a)), INITIAL, []) == Some(mid);
  }

  /** A quote may begin in one paragraph and end in the next. */
  lemma QuoteSpansParagraphs(env: Env)
    ensures Disciplined(env, Document(Next(Single(Start(Delimiter("begin", "quote"))),
                                           Start(Delimiter("end", "quote")))))
  {
    QuoteOpens(env);
    QuoteCloses(env);
    hide AfterThing, ThingOut, Disciplined;
    assert ["blockquote"] + ["p"] == QUOTED;
    TwoParagraphs(env, Delimiter("begin", "quote"), Delimiter("end", "quote"), ["blockquote"]);
  }

  /** A thing that fits inside the elements of a command makes an argument for it. */
  lemma NestedCommandFits(env: Env, name: string, inner: Thing, st: State, open: seq<string>)
    requires FindCmd(name).Some? && ArgSlot(FindCmd(name).value, false).Inside?
    requires BreaksPara(FindCmd(name).value) ==> InPara(open)
    requires var around := Around(ArgSlot(FindCmd(name).value, false), Base(FindCmd(name).value, open));
             AfterThing(env, inner, st, around) == Some(around)
    ensures AfterThing(env, Command(name, NoArg, Braced(Start(inner))), st, open) == Some(open)
  {
    hide FindCmd;
    var t, c := Command(name, NoArg, Braced(Start(inner))), FindCmd(name).value;
    var around := Around(ArgSlot(c, false), Base(c, open));
    assert ArgOut(env, NoArg, st) == Ok(Out([], st));
    OneThing(env, inner, st, around);
    assert AfterText(env, t.arg, st, around) == Some(around);
  }

  /** Emphasis inside a section is fine. */
  lemma EmphasisInsideSectionIsDisciplined(env: Env, s: string)
    ensures var emph := Command("emph", NoArg, Braced(Start(Word(s))));
            Disciplined(env, Document(Single(Start(Command("section", NoArg, Braced(Start(emph)))))))
  {
    assert FindCmd("emph") == Some(CEmph) && FindCmd("section") == Some(CSection);
    hide FindCmd, AfterThing;
    var emph := Command("emph", NoArg, Braced(Start(Word(s))));
    var section := Command("section", NoArg, Braced(Start(emph)));
    var around := Around(ArgSlot(CSection, false), Base(CSection, ["p"]));
    WordFits(env, s, INITIAL, Around(ArgSlot(CEmph, false), around));
    NestedCommandFits(env, "emph", Word(s), INITIAL, around);
    NestedCommandFits(env, "section", emph, INITIAL, ["p"]);
    OneThing(env, section, INITIAL, ["p"]);
    assert [] + ["p"] == ["p"];
    assert AfterParagraphs(env, Single(Start(section)), INITIAL, []) == Some([]);
  }

  lemma WordFits(env: Env, s: string, st: State, open: seq<string>)
    ensures AfterThing(env, Word(s), st, open) == Some(open)
  {}
}
