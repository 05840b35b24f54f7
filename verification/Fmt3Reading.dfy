/**
 The compiled text of a post reads as the post means.  Every piece of a post compiles to
 tokens that mean what Fmt3Meaning says, and the parser's state changes as the title,
 date, tag and image commands say and in no other way.
 */
module Fmt3Reading {
  import opened Basics
  import opened Escape
  import opened Html
  import opened HtmlReader
  import opened Fmt3
  import opened Fmt3Nesting
  import opened Fmt3Blocks
  import opened Fmt3Meaning
  import MathMl

  // ----- Commands -----------------------------------------------------------------------------

  /** The commands behind the names. */
  lemma FontsAre()
    ensures FindCmd("emph") == Some(CEmph) && FindCmd("textbf") == Some(CTextBf) && FindCmd("textit") == Some(CTextIt)
    ensures FindCmd("texttt") == Some(CTextTt) && FindCmd("degree") == Some(CDegree)
  {}

  lemma LinksAre()
    ensures FindCmd("link") == Some(CLink) && FindCmd("photolink") == Some(CPhotoLink)
    ensures FindCmd("post") == Some(CPost) && FindCmd("taglink") == Some(CTagLink)
    ensures FindCmd("wiki") == Some(CWiki) && FindCmd("bug") == Some(CBug)
  {}

  lemma DegreeMeans(txt: seq<Tok>, m: seq<Mark>)
    requires Mean(txt, m)
    ensures Mean([Text("\U{C2}\U{B0}")] + txt, Spell(Utf8(0xB0)) + m)
  {
    hide Mean;
    MeanPlain("\U{C2}\U{B0}");
    MeanConcat([Text("\U{C2}\U{B0}")], txt, Spell(Utf8(0xB0)), m);
  }

  lemma MonoMeans(txt: seq<Tok>, m: seq<Mark>)
    requires Mean(txt, m)
    ensures Mean([Open("span", [Attr("class", "tt")])] + txt + [Close("span")], Within(Role.Span, "tt", m))
  {
    hide Mean, NoteOf, AttrOk;
    ClassReads();
    MeanElemWith("span", Attr("class", "tt"), txt, m);
  }

  lemma FontElems(txt: seq<Tok>, m: seq<Mark>)
    requires Mean(txt, m)
    ensures Mean(MathMl.Elem("em", txt), Within(Role.Emphasis, "", m))
    ensures Mean(MathMl.Elem("strong", txt), Within(Role.Strong, "", m))
    ensures Mean(MathMl.Elem("i", txt), Within(Role.Italic, "", m))
  {
    hide Mean;
    MeanElem("em", txt, m);
    MeanElem("strong", txt, m);
    MeanElem("i", txt, m);
  }

  lemma FontMeans(env: Env, name: string, txt: seq<Tok>, m: seq<Mark>)
    requires name in FONTS && Mean(txt, m)
    ensures FindCmd(name).Some? && Mean(CmdToks(env, FindCmd(name).value, txt, false, []), FontMarks(name, m))
  {
    hide Mean, Serialize, Spell, FindCmd, MathMl.Elem, Within, Utf8;
    FontsAre();
    FontElems(txt, m);
    MonoMeans(txt, m);
    DegreeMeans(txt, m);
  }

  lemma ClassReads()
    ensures NoteOf("span", [Attr("class", "tt")]) == "tt" && AttrOk(Attr("class", "tt"))
  {
    PlainTextSays("tt");
  }

  lemma LinkMeans(href: string, url: string, body: seq<Tok>, m: seq<Mark>)
    requires Quotable(href, url) && Mean(body, m)
    ensures Mean(Fmt3.Link(href, body), Within(Role.Hyperlink, url, m))
  {
    hide Mean, Read;
    var a := Attr("href", href);
    assert NoteOf("a", [a]) == url;
    MeanElemWith("a", a, body, m);
  }

  lemma ImageMeans(src: string, url: string, alt: string, text: string)
    requires Quotable(src, url) && Quotable(alt, text)
    ensures Mean(Image(src, alt), [Picture(url, text)])
  {
    hide Mean, Read, ReadTag, Decode, Html.Inner, Closed;
    ImageReads(src, alt);
    var attrs := [Attr("src", src), Attr("alt", alt)];
    assert AttrOk(attrs[0]) && AttrOk(attrs[1]);
    MeanTag(Void("img", attrs));
  }

  lemma IconMeans(env: Env)
    requires PlainEnv(env)
    ensures Mean(Image(env.baseUrl + "/wiki.png", "Wikipedia article:") + [Text("&nbsp;")], Icon(env, "wiki"))
    ensures Mean(Image(env.baseUrl + "/bug.png", "bug #") + [Text("&nbsp;")], Icon(env, "bug"))
  {
    hide Mean, Quotable, Image, Utf8;
    QuotablePlain(env.baseUrl + "/wiki.png");
    QuotablePlain(env.baseUrl + "/bug.png");
    QuotablePlain("Wikipedia article:");
    QuotablePlain("bug #");
    ImageMeans(env.baseUrl + "/wiki.png", env.baseUrl + "/wiki.png", "Wikipedia article:", "Wikipedia article:");
    ImageMeans(env.baseUrl + "/bug.png", env.baseUrl + "/bug.png", "bug #", "bug #");
    assert EntityCode("nbsp") == Some(0xA0) && "&" + "nbsp" + ";" == "&nbsp;";
    MeanReference("nbsp", 0xA0);
    MeanConcat(Image(env.baseUrl + "/wiki.png", "Wikipedia article:"), [Text("&nbsp;")],
               [Picture(env.baseUrl + "/wiki.png", "Wikipedia article:")], Spell(Utf8(0xA0)));
    MeanConcat(Image(env.baseUrl + "/bug.png", "bug #"), [Text("&nbsp;")],
               [Picture(env.baseUrl + "/bug.png", "bug #")], Spell(Utf8(0xA0)));
  }

  lemma PrefixReads(base: string, mid: string, s: string, said: string)
    requires PlainText(base) && PlainText(mid) && Quotable(s, said)
    ensures Quotable(base + mid + s, base + mid + said)
  {
    hide Quotable;
    QuotablePlain(base);
    QuotablePlain(mid);
    QuotableConcat(base, mid, base, mid);
    QuotableConcat(base + mid, s, base + mid, said);
  }

  /** The output of a link that fits its buffer. */
  lemma NotCut(toks: seq<Tok>)
    ensures |Serialize(Truncate(toks))| < 1023 ==> Truncate(toks) == toks
  {
    var cut := if |Serialize(toks)| >= 1024 then Serialize(toks)[..1023] else "";
    assert Serialize([Text(cut)]) == cut + Serialize([Text(cut)][1..]);
  }

  /** What does not fit is cut to 1023 bytes. */
  lemma CutText(toks: seq<Tok>)
    ensures Serialize(Truncate(toks))
         == if |Serialize(toks)| < 1024 then Serialize(toks) else Serialize(toks)[..1023]
  {
    if |Serialize(toks)| >= 1024 {
      var cut := Serialize(toks)[..1023];
      assert Serialize([Text(cut)]) == cut + Serialize([Text(cut)][1..]);
    }
  }

  // ----- Arguments that are checked ---------------------------------------------------------

  const OPTIONALS: set<string> :=
    {"abbrev", "img", "item", "link", "listing", "photo", "photolink", "post", "taglink", "wiki"}

  /** What the table says of the arguments of a command. */
  predicate Takes(name: string)
  {
    && FindCmd(name).Some?
    && (TakesNoArg(FindCmd(name).value) <==> name in SYMBOLS)
    && (MayTakeOpt(FindCmd(name).value) <==> name in OPTIONALS)
  }

  lemma FontTakes(name: string)
    requires name in FONTS || name in HEADINGS
    ensures Takes(name)
  {}

  lemma LinkTakes(name: string)
    requires name in LINKS || name in PICTURES
    ensures Takes(name)
  {}

  lemma SymbolTakes(name: string)
    requires name in SYMBOLS || name in IGNORED
    ensures Takes(name)
  {}

  lemma OtherTakes(name: string)
    requires name in {"abbrev", "begin", "bug", "end", "item", "listing", "trow"}
    ensures Takes(name)
  {}

  /** A command aborts exactly if it is known and has no argument though it needs one, has
      one though it takes none, or has an optional one though it may not. */
  lemma ArgumentsChecked(env: Env, name: string, hasArg: bool, txt: seq<Tok>, hasOpt: bool, opt: seq<Tok>, st: State)
    ensures Process(env, name, hasArg, txt, hasOpt, opt, st).Panic? <==>
            IsCommand(name) && ((hasArg <==> name in SYMBOLS) || (hasOpt && name !in OPTIONALS))
  {
    hide CmdToks, Serialize, IsCommand, FindCmd, FindEnviron;
    if IsCommand(name) {
      CommandTakes(name);
    } else {
      NotFound(name);
    }
  }

  lemma CommandTakes(name: string)
    requires IsCommand(name)
    ensures Takes(name)
  {
    hide Takes;
    if name in FONTS || name in HEADINGS {
      FontTakes(name);
    } else if name in LINKS || name in PICTURES {
      LinkTakes(name);
    } else if name in SYMBOLS || name in IGNORED {
      SymbolTakes(name);
    } else {
      OtherTakes(name);
    }
  }

  /** An argument that is a lone title, date, tag or image command is none. */
  lemma LoneSpecialIsNone(env: Env, t: Thing, st: State)
    requires IsSpecial(t)
    ensures ThingOut(env, Command("emph", NoArg, Braced(Start(t))), st).Panic?
    ensures ThingOut(env, Command("tm", NoArg, Braced(Start(t))), st).Ok?
  {
    hide SimpleToks, SimpleState, CmdToks;
    assert FindCmd("emph") == Some(CEmph) && FindCmd("tm") == Some(CTm);
    ArgIsParagraph(env, Start(t), st);
    assert ParagraphOut(env, Start(t), st) == ThingOut(env, t, st);
  }

  /** A post without paragraphs is empty. */
  lemma EmptyPost(env: Env)
    ensures Compile(env, NoParagraphs).Ok? && Serialize(Compile(env, NoParagraphs).value.toks) == ""
  {}

  lemma LinkCmdMeans(env: Env, name: string, txt: seq<Tok>, said: string, hasOpt: bool, opt: seq<Tok>, m: seq<Mark>)
    requires PlainEnv(env) && name in LINKS + {"bug"} && (hasOpt ==> name != "bug")
    requires Quotable(Serialize(txt), said) && Mean(if hasOpt then opt else txt, m)
    requires FindCmd(name).Some? && (name in {"post", "taglink"} ==>
               |Serialize(CmdToks(env, FindCmd(name).value, txt, hasOpt, opt))| < 1023)
    ensures Mean(CmdToks(env, FindCmd(name).value, txt, hasOpt, opt), LinkMarks(env, name, said, m))
  {
    hide Mean, Quotable, PlainEnv, LinkMarks, FindCmd, Serialize, Truncate, Fmt3.Link, IconLink;
    LinksAre();
    var s, body := Serialize(txt), if hasOpt then opt else txt;
    if name == "link" {
      LinkPlain(env, s, said, body, m);
    } else if name == "photolink" {
      PhotoLinkMeans(env, s, said, body, m);
    } else if name == "post" {
      PostLinkMeans(env, s, said, body, m);
    } else if name == "taglink" {
      TagLinkMeans(env, s, said, body, m);
    } else if name == "wiki" {
      WikiLinkMeans(env, s, said, body, m);
    } else {
      BugLinkMeans(env, s, said, body, m);
    }
  }

  lemma LinkPlain(env: Env, s: string, said: string, body: seq<Tok>, m: seq<Mark>)
    requires Quotable(s, said) && Mean(body, m)
    ensures Mean(Fmt3.Link(s, body), LinkMarks(env, "link", said, m))
  {
    hide Mean, Quotable;
    LinkMeans(s, said, body, m);
    assert [] + m == m;
  }

  lemma PhotoLinkMeans(env: Env, s: string, said: string, body: seq<Tok>, m: seq<Mark>)
    requires PlainEnv(env) && Quotable(s, said) && Mean(body, m)
    ensures Mean(Fmt3.Link(env.photoUrl + "/" + s, body), LinkMarks(env, "photolink", said, m))
  {
    hide Mean, Quotable;
    PrefixReads(env.photoUrl, "/", s, said);
    LinkMeans(env.photoUrl + "/" + s, env.photoUrl + "/" + said, body, m);
    assert [] + m == m;
  }

  lemma PostLinkMeans(env: Env, s: string, said: string, body: seq<Tok>, m: seq<Mark>)
    requires PlainEnv(env) && Quotable(s, said) && Mean(body, m)
    requires |Serialize(Truncate(Fmt3.Link(env.baseUrl + "/?p=" + s, body)))| < 1023
    ensures Mean(Truncate(Fmt3.Link(env.baseUrl + "/?p=" + s, body)), LinkMarks(env, "post", said, m))
  {
    hide Mean, Quotable, Fmt3.Link, Truncate;
    NotCut(Fmt3.Link(env.baseUrl + "/?p=" + s, body));
    PrefixReads(env.baseUrl, "/?p=", s, said);
    LinkMeans(env.baseUrl + "/?p=" + s, env.baseUrl + "/?p=" + said, body, m);
    assert [] + m == m;
  }

  lemma TagLinkMeans(env: Env, s: string, said: string, body: seq<Tok>, m: seq<Mark>)
    requires PlainEnv(env) && Quotable(s, said) && Mean(body, m)
    requires |Serialize(Truncate(Fmt3.Link(env.baseUrl + "/?tag=" + s, body)))| < 1023
    ensures Mean(Truncate(Fmt3.Link(env.baseUrl + "/?tag=" + s, body)), LinkMarks(env, "taglink", said, m))
  {
    hide Mean, Quotable, Fmt3.Link, Truncate;
    NotCut(Fmt3.Link(env.baseUrl + "/?tag=" + s, body));
    PrefixReads(env.baseUrl, "/?tag=", s, said);
    LinkMeans(env.baseUrl + "/?tag=" + s, env.baseUrl + "/?tag=" + said, body, m);
    assert [] + m == m;
  }

  lemma WikiLinkMeans(env: Env, s: string, said: string, body: seq<Tok>, m: seq<Mark>)
    requires PlainEnv(env) && Quotable(s, said) && Mean(body, m)
    ensures Mean(IconLink(env.wikiUrl + "/" + s, env.baseUrl + "/wiki.png", "Wikipedia article:", body),
                 LinkMarks(env, "wiki", said, m))
  {
    hide Mean, Quotable, Image, Icon;
    IconMeans(env);
    var icon := Image(env.baseUrl + "/wiki.png", "Wikipedia article:") + [Text("&nbsp;")];
    PrefixReads(env.wikiUrl, "/", s, said);
    MeanConcat(icon, body, Icon(env, "wiki"), m);
    LinkMeans(env.wikiUrl + "/" + s, env.wikiUrl + "/" + said, icon + body, Icon(env, "wiki") + m);
  }

  lemma BugLinkMeans(env: Env, s: string, said: string, body: seq<Tok>, m: seq<Mark>)
    requires PlainEnv(env) && Quotable(s, said) && Mean(body, m)
    ensures Mean(IconLink(env.bugUrl + "/" + s, env.baseUrl + "/bug.png", "bug #", body),
                 LinkMarks(env, "bug", said, m))
  {
    hide Mean, Quotable, Image, Icon;
    IconMeans(env);
    var icon := Image(env.baseUrl + "/bug.png", "bug #") + [Text("&nbsp;")];
    PrefixReads(env.bugUrl, "/", s, said);
    MeanConcat(icon, body, Icon(env, "bug"), m);
    LinkMeans(env.bugUrl + "/" + s, env.bugUrl + "/" + said, icon + body, Icon(env, "bug") + m);
  }

  lemma PictureCmdMeans(env: Env, name: string, txt: seq<Tok>, said: string, hasOpt: bool, opt: seq<Tok>, alt: string)
    requires PlainEnv(env) && name in PICTURES && Quotable(Serialize(txt), said) && Quotable(Serialize(opt), alt)
    ensures FindCmd(name).Some?
    ensures Mean(CmdToks(env, FindCmd(name).value, txt, hasOpt, opt), PictureMarks(env, name, said, alt))
  {
    hide Mean, Quotable, Image, Serialize;
    PrefixReads(env.photoUrl, "/", Serialize(txt), said);
    if name == "photo" {
      ImageMeans(env.photoUrl + "/" + Serialize(txt), env.photoUrl + "/" + said, Serialize(opt), alt);
    } else {
      ImageMeans(Serialize(txt), said, Serialize(opt), alt);
    }
  }

  lemma AbbrevMeans(env: Env, txt: seq<Tok>, hasOpt: bool, opt: seq<Tok>, full: string, m: seq<Mark>)
    requires Mean(txt, m) && Quotable(Serialize(if hasOpt then opt else txt), full)
    ensures Mean(CmdToks(env, CAbbrev, txt, hasOpt, opt), Within(Role.Abbreviation, full, m))
  {
    hide Mean, Read, Serialize;
    var a := Attr("title", Serialize(if hasOpt then opt else txt));
    assert NoteOf("abbr", [a]) == full;
    MeanElemWith("abbr", a, txt, m);
  }

  lemma SymbolMeans(env: Env, name: string)
    requires name in SYMBOLS
    ensures FindCmd(name).Some? && Mean(CmdToks(env, FindCmd(name).value, [], false, []), Spell(SymbolText(name)))
  {
    hide Mean, Utf8, Serialize;
    assert EntityCode("larr") == Some(0x2190) && EntityCode("rarr") == Some(0x2192);
    assert EntityCode("harr") == Some(0x2194) && EntityCode("trade") == Some(0x2122);
    MeanReference("larr", 0x2190);
    MeanReference("rarr", 0x2192);
    MeanReference("harr", 0x2194);
    MeanReference("trade", 0x2122);
    assert "&" + "larr" + ";" == "&larr;" && "&" + "rarr" + ";" == "&rarr;";
    assert "&" + "harr" + ";" == "&harr;" && "&" + "trade" + ";" == "&trade;";
  }

  lemma HeadingMeans(env: Env, name: string, txt: seq<Tok>, m: seq<Mark>)
    requires name in HEADINGS && Mean(txt, m)
    ensures FindCmd(name).Some? && Mean(CmdToks(env, FindCmd(name).value, txt, false, []), HeadingMarks(name, m))
  {
    hide Mean, Serialize, MathMl.Elem;
    MeanElem("h3", txt, m);
    MeanElem("h4", txt, m);
    MeanElem("h5", txt, m);
    if name == "section" {
      MeanBreak(MathMl.Elem("h3", txt), Within(Role.Heading(3), "", m));
    } else if name == "subsection" {
      MeanBreak(MathMl.Elem("h4", txt), Within(Role.Heading(4), "", m));
    } else {
      MeanBreak(MathMl.Elem("h5", txt), Within(Role.Heading(5), "", m));
    }
  }

  lemma ParagraphTags()
    ensures Mean([Close("p")], [End(Role.Paragraph)]) && Mean([Open("p", [])], [Begin(Role.Paragraph, "")])
  {
    hide Mean, ReadTag, Html.Inner;
    CloseReads("p");
    OpenReads("p");
    MeanTag(Close("p"));
    MeanTag(Open("p", []));
  }

  /** What stands between paragraphs. */
  lemma MeanBreak(toks: seq<Tok>, m: seq<Mark>)
    requires Mean(toks, m)
    ensures Mean([Close("p")] + toks + [Open("p", [])], Between(m))
  {
    hide Mean;
    ParagraphTags();
    MeanConcat([Close("p")], toks, [End(Role.Paragraph)], m);
    MeanConcat([Close("p")] + toks, [Open("p", [])], [End(Role.Paragraph)] + m, [Begin(Role.Paragraph, "")]);
  }

  lemma PreformattedMeans(text: string, said: string)
    requires Says(text, said)
    ensures Mean(Fmt3.Preformatted(text), Between(Within(Role.Preformatted, "", Spell(said))))
  {
    hide Mean, Says;
    MeanText(text, said);
    MeanElem("pre", [Text(text)], Spell(said));
    MeanBreak(MathMl.Elem("pre", [Text(text)]), Within(Role.Preformatted, "", Spell(said)));
    assert Fmt3.Preformatted(text) == [Close("p")] + MathMl.Elem("pre", [Text(text)]) + [Open("p", [])];
  }

  lemma ItemMeans(env: Env, txt: seq<Tok>, m: seq<Mark>)
    requires Mean(txt, m)
    ensures Mean(CmdToks(env, CItem, txt, false, []), Within(Role.ListItem, "", m))
  {
    hide Mean, Serialize;
    MeanElem("li", txt, m);
  }

  lemma NamedItemMeans(env: Env, txt: seq<Tok>, m: seq<Mark>, opt: seq<Tok>, n: seq<Mark>)
    requires Mean(txt, m) && Mean(opt, n)
    ensures Mean(CmdToks(env, CItem, txt, true, opt), Within(Role.Term, "", n) + Within(Role.Definition, "", m))
  {
    hide Mean, Serialize;
    MeanElem("dt", opt, n);
    MeanElem("dd", txt, m);
    MeanConcat(MathMl.Elem("dt", opt), MathMl.Elem("dd", txt),
               Within(Role.Term, "", n), Within(Role.Definition, "", m));
  }

  lemma RowMeans(env: Env, txt: seq<Tok>, m: seq<Mark>)
    requires Mean(txt, m)
    ensures Mean(CmdToks(env, CTrow, txt, false, []), Within(Role.Row, "", Within(Role.Cell, "", m)))
  {
    hide Mean, Serialize;
    MeanElem("td", txt, m);
    MeanElem("tr", MathMl.Elem("td", txt), Within(Role.Cell, "", m));
  }

  // ----- Sequences of things ----------------------------------------------------------------------

  function OutOf(env: Env, ts: seq<Thing>, st: State): Result<Out>
  {
    if ts == [] then Ok(Out([], st))
    else
      match OutOf(env, DropLast(ts), st)
      case Panic(f) => Panic(f)
      case Ok(a) =>
        match ThingOut(env, Last(ts), a.st)
        case Panic(f) => Panic(f)
        case Ok(b) => Ok(Out(a.toks + b.toks, b.st))
  }

  lemma OutOne(env: Env, t: Thing, st: State)
    ensures OutOf(env, [t], st) == ThingOut(env, t, st)
  {
    hide ThingOut;
    assert DropLast([t]) == [];
    var out := ThingOut(env, t, st);
    if out.Ok? {
      assert [] + out.value.toks == out.value.toks;
    }
  }

  lemma {:induction false} OutConcat(env: Env, a: seq<Thing>, b: seq<Thing>, st: State)
    requires OutOf(env, a, st).Ok? && OutOf(env, b, OutOf(env, a, st).value.st).Ok?
    ensures var x, y := OutOf(env, a, st).value, OutOf(env, b, OutOf(env, a, st).value.st).value;
            OutOf(env, a + b, st) == Ok(Out(x.toks + y.toks, y.st))
  {
    hide ThingOut;
    var x := OutOf(env, a, st).value;
    if b == [] {
      assert a + b == a && x.toks + [] == x.toks;
    } else {
      assert DropLast(a + b) == a + DropLast(b);
      OutConcat(env, a, DropLast(b), st);
      var y, z := OutOf(env, DropLast(b), x.st).value, OutOf(env, b, x.st).value;
      var last := ThingOut(env, Last(b), y.st).value;
      assert x.toks + y.toks + last.toks == x.toks + (y.toks + last.toks);
    }
  }

  lemma {:induction false} OutParagraph(env: Env, ts: seq<Thing>, st: State)
    requires ts != []
    ensures ParagraphOut(env, ParagraphOf(ts), st) == OutOf(env, ts, st)
  {
    hide ThingOut;
    if |ts| == 1 {
      assert ts == [ts[0]];
      OutOne(env, ts[0], st);
    } else {
      OutParagraph(env, DropLast(ts), st);
    }
  }

  /** The same state, but for the files that were asked for. */
  predicate SameState(a: State, b: State)
  {
    a.(asked := []) == b.(asked := [])
  }

  /** The things compile to what means `m` and leave this state behind. */
  ghost predicate Outputs(env: Env, ts: seq<Thing>, st: State, m: seq<Mark>, end: State)
  {
    var out := OutOf(env, ts, st);
    out.Ok? && Mean(out.value.toks, m) && SameState(out.value.st, end)
  }

  lemma OutputsNothing(env: Env, st: State)
    ensures Outputs(env, [], st, [], st)
  {
    MeanNothing();
  }

  lemma OutputsConcat(env: Env, a: seq<Thing>, b: seq<Thing>, st: State, m: seq<Mark>, n: seq<Mark>,
                      mid: State, end: State)
    requires Outputs(env, a, st, m, mid) && Outputs(env, b, OutOf(env, a, st).value.st, n, end)
    ensures Outputs(env, a + b, st, m + n, end)
  {
    hide Mean, OutOf;
    OutConcat(env, a, b, st);
    var x := OutOf(env, a, st).value;
    MeanConcat(x.toks, OutOf(env, b, x.st).value.toks, m, n);
  }

  lemma OutputsOne(env: Env, t: Thing, st: State, m: seq<Mark>, end: State)
    requires ThingOut(env, t, st).Ok? && Mean(ThingOut(env, t, st).value.toks, m)
    requires SameState(ThingOut(env, t, st).value.st, end)
    ensures Outputs(env, [t], st, m, end)
  {
    hide Mean, OutOf, ThingOut;
    OutOne(env, t, st);
  }

  // ----- Arguments --------------------------------------------------------------------------------

  /** The argument means `m`. */
  ghost predicate ArgMeans(env: Env, a: Arg, st: State, m: seq<Mark>)
  {
    var out := ArgOut(env, a, st);
    out.Ok? && Mean(out.value.toks, m) && SameState(out.value.st, st)
  }

  lemma WrittenMeans(env: Env, text: Inlines, st: State, m: seq<Mark>)
    requires Outputs(env, Things(text), st, m, st)
    ensures ArgMeans(env, Written(text), st, m)
  {
    hide Mean, OutOf, ParagraphOf, Things, ParagraphOut;
    OutParagraph(env, Things(text), st);
    ArgIsParagraph(env, ParagraphOf(Things(text)), st);
  }

  lemma ArgIsParagraph(env: Env, p: Paragraph, st: State)
    ensures ArgOut(env, Braced(p), st) == ParagraphOut(env, p, st)
    ensures ArgOut(env, NoArg, st) == Ok(Out([], st))
  {}

  /** A command whose tokens mean `m`. */
  lemma CommandOutputs(env: Env, name: string, c: Cmd, opt: Arg, arg: Arg, st: State, m: seq<Mark>)
    requires FindCmd(name) == Some(c) && !c.CBegin? && !c.CEnd? && ArgsFit(c, Given(arg), Given(opt))
    requires ArgOut(env, opt, st).Ok? && SameState(ArgOut(env, opt, st).value.st, st)
    requires var mid := ArgOut(env, opt, st).value.st;
             && ArgOut(env, arg, mid).Ok? && SameState(ArgOut(env, arg, mid).value.st, mid)
             && Mean(CmdToks(env, c, ArgOut(env, arg, mid).value.toks, Given(opt), ArgOut(env, opt, st).value.toks), m)
    ensures Outputs(env, [Command(name, opt, arg)], st, m, st)
  {
    hide FindCmd, CmdToks, ArgsFit, ArgOut, Given, Serialize, Mean, OutOf;
    OutputsOne(env, Command(name, opt, arg), st, m, st);
  }

  /** Text only, which can be read from an attribute. */
  lemma {:induction false} TextQuotable(env: Env, text: Inlines, st: State)
    requires AllText(text) && LegibleText(env, text)
    ensures var out := OutOf(env, Things(text), st);
            && out.Ok? && out.value.st == st
            && Quotable(Serialize(out.value.toks), TextOfAll(text, st.textttNesting != 0))
  {
    hide Quotable, SimpleToks, TextOf, IsText, Lexed;
    match text
    case One(i) =>
      LeafQuotable(env, i.t, st);
    case More(front, i) =>
      TextQuotable(env, front, st);
      LeafQuotable(env, i.t, st);
      OutConcat(env, Things(front), [i.t], st);
      var a, b := OutOf(env, Things(front), st).value.toks, OutOf(env, [i.t], st).value.toks;
      SerializeConcat(a, b);
      var code := st.textttNesting != 0;
      QuotableConcat(Serialize(a), Serialize(b), TextOfAll(front, code), TextOf(i.t, code));
  }

  lemma LeafQuotable(env: Env, t: Thing, st: State)
    requires IsText(t) && Lexed(t)
    ensures var out := OutOf(env, [t], st);
            && out.Ok? && out.value.st == st
            && Quotable(Serialize(out.value.toks), TextOf(t, st.textttNesting != 0))
  {
    OutOne(env, t, st);
    TextReads(t, st.textttNesting);
    hide Quotable, TextOf, Lexed, SimpleToks, OutOf;
    var toks := SimpleToks(t, st.textttNesting);
    assert toks == [Text(toks[0].s)] && [Text(toks[0].s)][1..] == [];
    assert Serialize(toks) == toks[0].s + Serialize(toks[1..]);
    assert toks[0].s + "" == toks[0].s;
    assert SimpleState(env, t, st) == st;
  }

  // ----- Inline text --------------------------------------------------------------------------------

  /** What a command prints. */
  lemma CommandPrints(env: Env, name: string, c: Cmd, opt: Arg, arg: Arg, st: State)
    requires FindCmd(name) == Some(c) && !c.CBegin? && !c.CEnd? && ArgsFit(c, Given(arg), Given(opt))
    requires ArgOut(env, opt, st).Ok? && ArgOut(env, arg, ArgOut(env, opt, st).value.st).Ok?
    ensures var x := ArgOut(env, opt, st).value;
            var out := ThingOut(env, Command(name, opt, arg), st);
            out.Ok? && out.value.toks == CmdToks(env, c, ArgOut(env, arg, x.st).value.toks, Given(opt), x.toks)
  {
    hide FindCmd, CmdToks, ArgsFit, ArgOut, Given, Serialize;
  }

  /** A command with text in braces. */
  lemma OneTextOutputs(env: Env, name: string, c: Cmd, arg: Inlines, st: State, m: seq<Mark>, n: seq<Mark>)
    requires FindCmd(name) == Some(c) && !c.CBegin? && !c.CEnd? && ArgsFit(c, true, false)
    requires Given(Written(arg)) && ArgMeans(env, Written(arg), st, m)
    requires Mean(CmdToks(env, c, ArgOut(env, Written(arg), st).value.toks, false, []), n)
    ensures Outputs(env, [Command(name, NoArg, Written(arg))], st, n, st)
  {
    hide FindCmd, CmdToks, ArgsFit, Mean, Written, Outputs, ParagraphOut;
    ArgIsParagraph(env, Start(Newline), st);
    CommandOutputs(env, name, c, NoArg, Written(arg), st, n);
  }

  /** A command with text in brackets and in braces. */
  lemma TwoTextsOutput(env: Env, name: string, c: Cmd, opt: Inlines, arg: Inlines, st: State,
                       m: seq<Mark>, n: seq<Mark>, r: seq<Mark>)
    requires FindCmd(name) == Some(c) && !c.CBegin? && !c.CEnd? && ArgsFit(c, true, true)
    requires Given(Written(opt)) && Given(Written(arg)) && ArgMeans(env, Written(opt), st, m)
    requires var x := ArgOut(env, Written(opt), st).value;
             && ArgMeans(env, Written(arg), x.st, n)
             && Mean(CmdToks(env, c, ArgOut(env, Written(arg), x.st).value.toks, true, x.toks), r)
    ensures Outputs(env, [Command(name, Written(opt), Written(arg))], st, r, st)
  {
    hide FindCmd, CmdToks, ArgsFit, Mean, Written, Outputs, ArgOut, Given;
    CommandOutputs(env, name, c, Written(opt), Written(arg), st, r);
  }

  /** Text as an argument. */
  lemma {:induction false} TextArg(env: Env, text: Inlines, st: State)
    requires PlainEnv(env) && ProperInlines(text) && LegibleText(env, text)
    ensures Given(Written(text)) && ArgMeans(env, Written(text), st, TextMarks(env, text, st.textttNesting != 0))
    decreases text, 1
  {
    hide ArgMeans, Outputs, Things, ParagraphOf, PlainEnv, LegibleText, TextMarks;
    TextOutputs(env, text, st);
    WrittenMeans(env, text, st, TextMarks(env, text, st.textttNesting != 0));
    InlinesPlain(text);
    TextGiven(Things(text));
  }

  lemma TargetArg(env: Env, text: Inlines, st: State)
    requires AllText(text) && LegibleText(env, text)
    ensures ArgOut(env, Written(text), st).Ok?
    ensures Quotable(Serialize(ArgOut(env, Written(text), st).value.toks), TextOfAll(text, st.textttNesting != 0))
  {
    hide Quotable, Things, ParagraphOf, ParagraphOut, Serialize, OutOf;
    TextQuotable(env, text, st);
    OutParagraph(env, Things(text), st);
    ArgIsParagraph(env, ParagraphOf(Things(text)), st);
  }

  lemma FontOutputs(env: Env, name: string, body: Inlines, st: State, m: seq<Mark>)
    requires name in FONTS && Given(Written(body)) && ArgMeans(env, Written(body), st, m)
    ensures Outputs(env, [Command(name, NoArg, Written(body))], st, FontMarks(name, m), st)
  {
    hide FindCmd, CmdToks, Written, Mean, FontMarks, Outputs, ArgOut, Given;
    FontFound(name);
    FontMeans(env, name, ArgOut(env, Written(body), st).value.toks, m);
    OneTextOutputs(env, name, FindCmd(name).value, body, st, m, FontMarks(name, m));
  }

  lemma LinkOutputs(env: Env, name: string, target: Inlines, st: State, said: string, m: seq<Mark>)
    requires PlainEnv(env) && name in LINKS + {"bug"} && Given(Written(target)) && ArgMeans(env, Written(target), st, m)
    requires Quotable(Serialize(ArgOut(env, Written(target), st).value.toks), said)
    requires name in {"post", "taglink"} ==> InBuffer(env, Inline.Link(name, target))
    ensures Outputs(env, [Command(name, NoArg, Written(target))], st, LinkMarks(env, name, said, m), st)
  {
    hide FindCmd, CmdToks, Written, Mean, LinkMarks, Outputs, ArgOut, Given, Quotable, Serialize, PlainEnv, ThingOut;
    KnownLink(name);
    var c, txt := FindCmd(name).value, ArgOut(env, Written(target), st).value.toks;
    NotGiven(env, st);
    CommandPrints(env, name, c, NoArg, Written(target), st);
    assert ThingOf(Inline.Link(name, target)) == Command(name, NoArg, Written(target));
    LinkCmdMeans(env, name, txt, said, false, [], m);
    OneTextOutputs(env, name, c, target, st, m, LinkMarks(env, name, said, m));
  }

  lemma NotGiven(env: Env, st: State)
    ensures !Given(NoArg) && ArgOut(env, NoArg, st) == Ok(Out([], st))
  {}

  lemma KnownLink(name: string)
    requires name in LINKS + {"bug"}
    ensures FindCmd(name).Some? && !FindCmd(name).value.CBegin? && !FindCmd(name).value.CEnd?
    ensures ArgsFit(FindCmd(name).value, true, false)
    ensures name != "bug" ==> ArgsFit(FindCmd(name).value, true, true)
  {
    hide FindCmd;
    if name in LINKS {
      LinkFound(name);
    }
    BugFound();
  }

  lemma CaptionOutputs(env: Env, name: string, caption: Inlines, target: Inlines, st: State, said: string,
                       m: seq<Mark>, n: seq<Mark>)
    requires PlainEnv(env) && name in LINKS
    requires Given(Written(caption)) && Given(Written(target)) && ArgMeans(env, Written(caption), st, m)
    requires var mid := ArgOut(env, Written(caption), st).value.st;
             && ArgMeans(env, Written(target), mid, n)
             && Quotable(Serialize(ArgOut(env, Written(target), mid).value.toks), said)
    requires name in {"post", "taglink"} ==> InBuffer(env, Captioned(name, caption, target))
    ensures Outputs(env, [Command(name, Written(caption), Written(target))], st, LinkMarks(env, name, said, m), st)
  {
    hide FindCmd, CmdToks, Written, Mean, LinkMarks, Outputs, ArgOut, Given, Quotable, Serialize, PlainEnv, ThingOut;
    KnownLink(name);
    var c, x := FindCmd(name).value, ArgOut(env, Written(caption), st).value;
    var txt := ArgOut(env, Written(target), x.st).value.toks;
    CommandPrints(env, name, c, Written(caption), Written(target), st);
    assert ThingOf(Captioned(name, caption, target)) == Command(name, Written(caption), Written(target));
    LinkCmdMeans(env, name, txt, said, true, x.toks, m);
    TwoTextsOutput(env, name, c, caption, target, st, m, n, LinkMarks(env, name, said, m));
  }

  lemma PhotoOutputs(env: Env, name: string, target: Inlines, st: State, said: string, m: seq<Mark>)
    requires PlainEnv(env) && name in PICTURES && Given(Written(target)) && ArgMeans(env, Written(target), st, m)
    requires Quotable(Serialize(ArgOut(env, Written(target), st).value.toks), said)
    ensures Outputs(env, [Command(name, NoArg, Written(target))], st, PictureMarks(env, name, said, ""), st)
  {
    hide FindCmd, CmdToks, Written, Mean, PictureMarks, Outputs, ArgOut, Given, Quotable, PlainEnv;
    PictureFound(name);
    QuotablePlain("");
    PictureCmdMeans(env, name, ArgOut(env, Written(target), st).value.toks, said, false, [], "");
    OneTextOutputs(env, name, FindCmd(name).value, target, st, m, PictureMarks(env, name, said, ""));
  }

  lemma DescribedOutputs(env: Env, name: string, alt: Inlines, target: Inlines, st: State, text: string, said: string,
                         m: seq<Mark>, n: seq<Mark>)
    requires PlainEnv(env) && name in PICTURES
    requires Given(Written(alt)) && Given(Written(target)) && ArgMeans(env, Written(alt), st, m)
    requires Quotable(Serialize(ArgOut(env, Written(alt), st).value.toks), text)
    requires var mid := ArgOut(env, Written(alt), st).value.st;
             && ArgMeans(env, Written(target), mid, n)
             && Quotable(Serialize(ArgOut(env, Written(target), mid).value.toks), said)
    ensures Outputs(env, [Command(name, Written(alt), Written(target))], st, PictureMarks(env, name, said, text), st)
  {
    hide FindCmd, CmdToks, Written, Mean, PictureMarks, Outputs, ArgOut, Given, Quotable, PlainEnv, Serialize;
    PictureFound(name);
    var x := ArgOut(env, Written(alt), st).value;
    PictureCmdMeans(env, name, ArgOut(env, Written(target), x.st).value.toks, said, true, x.toks, text);
    TwoTextsOutput(env, name, FindCmd(name).value, alt, target, st, m, n, PictureMarks(env, name, said, text));
  }

  lemma ShortOutputs(env: Env, text: Inlines, st: State, said: string, m: seq<Mark>)
    requires Given(Written(text)) && ArgMeans(env, Written(text), st, m)
    requires Quotable(Serialize(ArgOut(env, Written(text), st).value.toks), said)
    ensures Outputs(env, [Command("abbrev", NoArg, Written(text))], st, Within(Role.Abbreviation, said, m), st)
  {
    hide FindCmd, CmdToks, Written, Mean, Outputs, ArgOut, Given, Quotable, Serialize, Within;
    AbbrevFound();
    AbbrevMeans(env, ArgOut(env, Written(text), st).value.toks, false, [], said, m);
    OneTextOutputs(env, "abbrev", CAbbrev, text, st, m, Within(Role.Abbreviation, said, m));
  }

  lemma ExpandedOutputs(env: Env, full: Inlines, text: Inlines, st: State, said: string, m: seq<Mark>, n: seq<Mark>)
    requires Given(Written(full)) && Given(Written(text)) && ArgMeans(env, Written(full), st, m)
    requires Quotable(Serialize(ArgOut(env, Written(full), st).value.toks), said)
    requires ArgMeans(env, Written(text), ArgOut(env, Written(full), st).value.st, n)
    ensures Outputs(env, [Command("abbrev", Written(full), Written(text))], st, Within(Role.Abbreviation, said, n), st)
  {
    hide FindCmd, CmdToks, Written, Mean, Outputs, ArgOut, Given, Quotable, Serialize, Within;
    AbbrevFound();
    var x := ArgOut(env, Written(full), st).value;
    AbbrevMeans(env, ArgOut(env, Written(text), x.st).value.toks, true, x.toks, said, n);
    TwoTextsOutput(env, "abbrev", CAbbrev, full, text, st, m, n, Within(Role.Abbreviation, said, n));
  }

  lemma SymbolOutputs(env: Env, name: string, st: State)
    requires name in SYMBOLS
    ensures Outputs(env, [Command(name, NoArg, NoArg)], st, Spell(SymbolText(name)), st)
  {
    hide FindCmd, CmdToks, Mean, Outputs, ArgOut, Given, SymbolText, Spell;
    NotGiven(env, st);
    SymbolFound(name);
    SymbolMeans(env, name);
    CommandOutputs(env, name, FindCmd(name).value, NoArg, NoArg, st, Spell(SymbolText(name)));
  }

  lemma IgnoredOutputs(env: Env, name: string, body: Inlines, st: State, m: seq<Mark>)
    requires name in IGNORED && Given(Written(body)) && ArgMeans(env, Written(body), st, m)
    ensures Outputs(env, [Command(name, NoArg, Written(body))], st, [], st)
  {
    hide FindCmd, Written, Mean, Outputs, ArgOut, Given, Serialize;
    IgnoredFound(name);
    MeanNothing();
    OneTextOutputs(env, name, CNop, body, st, m, []);
  }

  lemma UnknownOutputs(env: Env, name: string, st: State)
    requires !IsCommand(name) && PlainText(name)
    ensures Outputs(env, [Command(name, NoArg, NoArg)], st, Spell("[INVAL CMD '" + name + "']"), st)
  {
    hide FindCmd, Mean, Outputs, IsCommand, ParagraphOut;
    NotFound(name);
    NotGiven(env, st);
    var text := "[INVAL CMD '" + name + "']";
    MeanPlain(text);
    OutputsOne(env, Command(name, NoArg, NoArg), st, Spell(text), st);
  }

  lemma UnknownEnvironOutputs(env: Env, begin: bool, kind: string, st: State)
    requires !IsEnviron(kind) && PlainText(kind)
    ensures Outputs(env, [Delimiter(if begin then "begin" else "end", kind)], st,
                    Spell("[INVAL ENVIRON '" + kind + "']"), st)
  {
    var t := Delimiter(if begin then "begin" else "end", kind);
    var text := "[INVAL ENVIRON '" + kind + "']";
    UnknownDelimiter(env, begin, kind, st);
    hide Mean, Outputs, ThingOut, Delimiter;
    MeanInvalid(kind);
    OutputsOne(env, t, st, Spell(text), st);
  }

  lemma MeanInvalid(kind: string)
    requires PlainText(kind)
    ensures Mean(InvalidEnviron([Text(kind)]), Spell("[INVAL ENVIRON '" + kind + "']"))
  {
    hide Mean;
    MeanPlain("[INVAL ENVIRON '");
    MeanPlain(kind);
    MeanPlain("']");
    SpellConcat("[INVAL ENVIRON '", kind);
    SpellConcat("[INVAL ENVIRON '" + kind, "']");
    MeanConcat([Text("[INVAL ENVIRON '")], [Text(kind)], Spell("[INVAL ENVIRON '"), Spell(kind));
    MeanConcat([Text("[INVAL ENVIRON '")] + [Text(kind)], [Text("']")], Spell("[INVAL ENVIRON '" + kind), Spell("']"));
  }

  lemma UnknownDelimiter(env: Env, begin: bool, kind: string, st: State)
    requires !IsEnviron(kind)
    ensures ThingOut(env, Delimiter(if begin then "begin" else "end", kind), st)
         == Ok(Out(InvalidEnviron([Text(kind)]), st))
  {
    hide FindEnviron, IsEnviron;
    EnvironsFound(kind);
    WordArg(env, kind, st, []);
    NotGiven(env, st);
    assert FindCmd("begin") == Some(CBegin) && FindCmd("end") == Some(CEnd);
  }

  /** Inline text compiles to what it means. */
  lemma {:induction false} InlineOutputs(env: Env, i: Inline, st: State)
    requires PlainEnv(env) && ProperInline(i) && Legible(env, i)
    ensures Outputs(env, [ThingOf(i)], st, InlineMarks(env, i, st.textttNesting != 0), st)
    decreases i, 0
  {
    hide Outputs, ArgMeans, Given, Written, Quotable, Serialize, PlainEnv, FontMarks, LinkMarks, PictureMarks, Within;
    hide AllText, LegibleText, ProperInlines, TextMarks, TextOfAll, SymbolText, IsCommand, IsEnviron, InBuffer;
    hide LeafMarks, Lexed, ArgOut, SimpleToks, ThingOut;
    match i
    case Leaf(t) => LeafOutputs(env, t, st);
    case Font(name, body) =>
      TextArg(env, body, st);
      FontOutputs(env, name, body, st, TextMarks(env, body, st.textttNesting != 0));
    case Link(name, target) =>
      TextArg(env, target, st);
      TargetArg(env, target, st);
      LinkOutputs(env, name, target, st, TextOfAll(target, st.textttNesting != 0),
                  TextMarks(env, target, st.textttNesting != 0));
    case Captioned(name, caption, target) =>
      TextArg(env, caption, st);
      var mid := AfterArg(env, caption, st, TextMarks(env, caption, st.textttNesting != 0));
      TextArg(env, target, mid);
      TargetArg(env, target, mid);
      CaptionOutputs(env, name, caption, target, st, TextOfAll(target, st.textttNesting != 0),
                     TextMarks(env, caption, st.textttNesting != 0), TextMarks(env, target, st.textttNesting != 0));
    case Photo(name, target) =>
      TextArg(env, target, st);
      TargetArg(env, target, st);
      PhotoOutputs(env, name, target, st, TextOfAll(target, st.textttNesting != 0),
                   TextMarks(env, target, st.textttNesting != 0));
    case Described(name, alt, target) =>
      TextArg(env, alt, st);
      TargetArg(env, alt, st);
      var mid := AfterArg(env, alt, st, TextMarks(env, alt, st.textttNesting != 0));
      TextArg(env, target, mid);
      TargetArg(env, target, mid);
      DescribedOutputs(env, name, alt, target, st, TextOfAll(alt, st.textttNesting != 0),
                       TextOfAll(target, st.textttNesting != 0),
                       TextMarks(env, alt, st.textttNesting != 0), TextMarks(env, target, st.textttNesting != 0));
    case Short(text) =>
      TextArg(env, text, st);
      TargetArg(env, text, st);
      ShortOutputs(env, text, st, TextOfAll(text, st.textttNesting != 0), TextMarks(env, text, st.textttNesting != 0));
    case Expanded(full, text) =>
      TextArg(env, full, st);
      TargetArg(env, full, st);
      var mid := AfterArg(env, full, st, TextMarks(env, full, st.textttNesting != 0));
      TextArg(env, text, mid);
      ExpandedOutputs(env, full, text, st, TextOfAll(full, st.textttNesting != 0),
                      TextMarks(env, full, st.textttNesting != 0), TextMarks(env, text, st.textttNesting != 0));
    case Symbol(name) => SymbolOutputs(env, name, st);
    case Dropped(name, body) =>
      TextArg(env, body, st);
      IgnoredOutputs(env, name, body, st, TextMarks(env, body, st.textttNesting != 0));
    case UnknownCmd(name) => UnknownOutputs(env, name, st);
    case UnknownEnviron(begin, kind) => UnknownEnvironOutputs(env, begin, kind, st);
  }

  /** The state behind an argument. */
  lemma AfterArg(env: Env, text: Inlines, st: State, m: seq<Mark>) returns (mid: State)
    requires ArgMeans(env, Written(text), st, m)
    ensures ArgOut(env, Written(text), st).Ok? && mid == ArgOut(env, Written(text), st).value.st
    ensures mid.textttNesting == st.textttNesting
  {
    hide Mean, ArgOut, Written;
    mid := ArgOut(env, Written(text), st).value.st;
    assert mid.(asked := []) == st.(asked := []);
  }

  lemma LeafOutputs(env: Env, t: Thing, st: State)
    requires ProperInline(Leaf(t)) && Lexed(t)
    ensures Outputs(env, [t], st, LeafMarks(t, st.textttNesting != 0), st)
  {
    LeafMeans(t, st.textttNesting);
    LeafStays(env, t, st);
    hide Mean, Outputs, LeafMarks, ThingOut, SimpleToks, Lexed;
    OutputsOne(env, t, st, LeafMarks(t, st.textttNesting != 0), st);
  }

  lemma LeafStays(env: Env, t: Thing, st: State)
    requires ProperInline(Leaf(t))
    ensures ThingOut(env, t, st) == Ok(Out(SimpleToks(t, st.textttNesting), st))
  {
    hide SimpleToks, ArgOut, Process;
  }

  lemma {:induction false} TextOutputs(env: Env, text: Inlines, st: State)
    requires PlainEnv(env) && ProperInlines(text) && LegibleText(env, text)
    ensures Outputs(env, Things(text), st, TextMarks(env, text, st.textttNesting != 0), st)
    decreases text, 0
  {
    hide PlainEnv, ProperInline, Legible, InlineMarks, Mean, OutOf, ThingOf;
    match text
    case One(i) => InlineOutputs(env, i, st);
    case More(front, i) =>
      TextOutputs(env, front, st);
      var mid := OutOf(env, Things(front), st).value.st;
      assert mid.(asked := []).textttNesting == st.(asked := []).textttNesting;
      InlineOutputs(env, i, mid);
      OutputsConcat(env, Things(front), [ThingOf(i)], st, TextMarks(env, front, st.textttNesting != 0),
                    InlineMarks(env, i, st.textttNesting != 0), st, st);
  }

  // ----- Environments -------------------------------------------------------------------------------

  /** The begin and the end of an environment around things that leave the state as it
      is inside. */
  lemma EnvironmentOutputs(env: Env, kind: string, e: Environ, inner: seq<Thing>, st: State, end: State,
                           m: seq<Mark>, open: seq<Mark>, close: seq<Mark>)
    requires FindEnviron(kind) == Some(e)
    requires Mean(BeginToks(e, st.tableNesting), open) && Mean(EndToks(e, st.tableNesting), close)
    requires Outputs(env, inner, Fmt3.Count(st, e, 1), m, Fmt3.Count(end, e, 1))
    requires end.tableNesting == st.tableNesting && end.textttNesting == st.textttNesting
    ensures Outputs(env, Environment(kind, inner), st, open + m + close, end)
  {
    hide Mean, OutOf, FindEnviron, BeginToks, EndToks, ThingOut, Delimiter;
    var first, last := Delimiter("begin", kind), Delimiter("end", kind);
    NameIs(kind);
    DelimiterAfter(env, true, kind, st, []);
    var inside := Fmt3.Count(st, e, 1);
    OutputsOne(env, first, st, open, inside);
    OutOne(env, first, st);
    OutputsConcat(env, [first], inner, st, open, m, inside, Fmt3.Count(end, e, 1));
    OutConcat(env, [first], inner, st);
    var mid := OutOf(env, [first] + inner, st).value.st;
    CountReturns(mid, end, e);
    DelimiterAfter(env, false, kind, mid, []);
    OutputsOne(env, last, mid, close, end);
    OutputsConcat(env, [first] + inner, [last], st, open + m, close, Fmt3.Count(end, e, 1), end);
  }

  lemma CountReturns(mid: State, end: State, e: Environ)
    requires SameState(mid, Fmt3.Count(end, e, 1))
    ensures SameState(Fmt3.Count(mid, e, -1), end)
    ensures Fmt3.Count(mid, e, -1).tableNesting == end.tableNesting
  {
    assert mid.(asked := []).tableNesting == Fmt3.Count(end, e, 1).(asked := []).tableNesting;
    assert mid.(asked := []).textttNesting == Fmt3.Count(end, e, 1).(asked := []).textttNesting;
  }

  lemma OpenTag(name: string)
    requires NameOk(name) && name != "img"
    ensures Mean([Open(name, [])], [Begin(RoleOf(name), "")])
  {
    hide Mean, ReadTag, Html.Inner, RoleOf;
    OpenReads(name);
    MeanTag(Open(name, []));
  }

  lemma CloseTag(name: string)
    requires NameOk(name)
    ensures Mean([Close(name)], [End(RoleOf(name))])
  {
    hide Mean, ReadTag, Html.Inner, RoleOf;
    CloseReads(name);
    MeanTag(Close(name));
  }

  /** The begin and end of an environment that stands between paragraphs. */
  lemma DelimitersMean(name: string)
    requires NameOk(name) && name != "img"
    ensures Mean([Close("p"), Open(name, [])], [End(Role.Paragraph), Begin(RoleOf(name), "")])
    ensures Mean([Close(name), Open("p", [])], [End(RoleOf(name)), Begin(Role.Paragraph, "")])
  {
    hide Mean, RoleOf;
    ParagraphTags();
    OpenTag(name);
    CloseTag(name);
    MeanConcat([Close("p")], [Open(name, [])], [End(Role.Paragraph)], [Begin(RoleOf(name), "")]);
    MeanConcat([Close(name)], [Open("p", [])], [End(RoleOf(name))], [Begin(Role.Paragraph, "")]);
    assert [Close("p")] + [Open(name, [])] == [Close("p"), Open(name, [])];
    assert [Close(name)] + [Open("p", [])] == [Close(name), Open("p", [])];
    assert [End(Role.Paragraph)] + [Begin(RoleOf(name), "")] == [End(Role.Paragraph), Begin(RoleOf(name), "")];
    assert [End(RoleOf(name))] + [Begin(Role.Paragraph, "")] == [End(RoleOf(name)), Begin(Role.Paragraph, "")];
  }

  lemma QuoteMeans()
    ensures Mean(BeginToks(EQuote, 0), [End(Role.Paragraph), Begin(Role.Quotation, ""), Begin(Role.Paragraph, "")])
    ensures Mean(EndToks(EQuote, 0), [End(Role.Paragraph), End(Role.Quotation), Begin(Role.Paragraph, "")])
  {
    hide Mean;
    ParagraphTags();
    OpenTag("blockquote");
    CloseTag("blockquote");
    DelimitersMean("blockquote");
    MeanConcat([Close("p"), Open("blockquote", [])], [Open("p", [])],
               [End(Role.Paragraph), Begin(Role.Quotation, "")], [Begin(Role.Paragraph, "")]);
    MeanConcat([Close("p")], [Close("blockquote"), Open("p", [])],
               [End(Role.Paragraph)], [End(Role.Quotation), Begin(Role.Paragraph, "")]);
    assert BeginToks(EQuote, 0) == [Close("p"), Open("blockquote", [])] + [Open("p", [])];
    assert EndToks(EQuote, 0) == [Close("p")] + [Close("blockquote"), Open("p", [])];
    assert [End(Role.Paragraph), Begin(Role.Quotation, "")] + [Begin(Role.Paragraph, "")]
        == [End(Role.Paragraph), Begin(Role.Quotation, ""), Begin(Role.Paragraph, "")];
    assert [End(Role.Paragraph)] + [End(Role.Quotation), Begin(Role.Paragraph, "")]
        == [End(Role.Paragraph), End(Role.Quotation), Begin(Role.Paragraph, "")];
  }

  lemma BetweenParts(role: Role, m: seq<Mark>)
    ensures [End(Role.Paragraph), Begin(role, "")] + m + [End(role), Begin(Role.Paragraph, "")]
         == Between(Within(role, "", m))
  {}

  lemma QuoteParts(m: seq<Mark>)
    ensures [End(Role.Paragraph), Begin(Role.Quotation, ""), Begin(Role.Paragraph, "")] + m
            + [End(Role.Paragraph), End(Role.Quotation), Begin(Role.Paragraph, "")]
         == Between(Within(Role.Quotation, "", Within(Role.Paragraph, "", m)))
  {}

  /** Environments that stand between paragraphs and hold no blocks. */
  lemma PlainEnvironment(env: Env, kind: string, e: Environ, name: string, inner: seq<Thing>, st: State, m: seq<Mark>)
    requires FindEnviron(kind) == Some(e) && NameOk(name) && name != "img" && st.tableNesting == 0
    requires BeginToks(e, 0) == [Close("p"), Open(name, [])] && EndToks(e, 0) == [Close(name), Open("p", [])]
    requires Outputs(env, inner, Fmt3.Count(st, e, 1), m, Fmt3.Count(st, e, 1))
    ensures Outputs(env, Environment(kind, inner), st, Between(Within(RoleOf(name), "", m)), st)
  {
    hide Mean, FindEnviron, BeginToks, EndToks, Outputs, RoleOf, Between, Within;
    DelimitersMean(name);
    var open, close := [End(Role.Paragraph), Begin(RoleOf(name), "")], [End(RoleOf(name)), Begin(Role.Paragraph, "")];
    EnvironmentOutputs(env, kind, e, inner, st, st, m, open, close);
    BetweenParts(RoleOf(name), m);
  }

  // ----- Tables -------------------------------------------------------------------------------------

  lemma SeparatorOutputs(env: Env, st: State)
    ensures Outputs(env, [Ampersand], st, [End(Role.Cell), Begin(Role.Cell, "")], st)
  {
    SeparatorPrints(env, st);
    hide Mean, Outputs, ThingOut;
    OpenTag("td");
    CloseTag("td");
    MeanConcat([Close("td")], [Open("td", [])], [End(Role.Cell)], [Begin(Role.Cell, "")]);
    assert [Close("td")] + [Open("td", [])] == [Close("td"), Open("td", [])];
    assert [End(Role.Cell)] + [Begin(Role.Cell, "")] == [End(Role.Cell), Begin(Role.Cell, "")];
    OutputsOne(env, Ampersand, st, [End(Role.Cell), Begin(Role.Cell, "")], st);
  }

  lemma SeparatorPrints(env: Env, st: State)
    ensures ThingOut(env, Ampersand, st) == Ok(Out([Close("td"), Open("td", [])], st))
  {
    hide ArgOut, Process;
  }

  lemma {:induction false} CellOutputs(env: Env, c: Cell, st: State)
    requires PlainEnv(env) && ProperCell(c) && LegibleCell(env, c) && st.tableNesting > 0 && st.textttNesting == 0
    ensures Outputs(env, CellThings(c), st, CellMarks(env, c), st)
    decreases c, 0
  {
    hide PlainEnv, Outputs, ProperInline, Legible, InlineMarks, ThingOf, RowThings, RowsMarks, Environment;
    match c
    case Content(i) => InlineOutputs(env, i, st);
    case Separator => SeparatorOutputs(env, st);
    case Inner(rows) => InnerTableOutputs(env, rows, st);
  }

  lemma {:induction false} InnerTableOutputs(env: Env, rows: Rows, st: State)
    requires PlainEnv(env) && ProperRows(rows) && LegibleRows(env, rows)
    requires st.tableNesting > 0 && st.textttNesting == 0
    ensures Outputs(env, Environment("tabular", RowThings(rows)), st,
                    Within(Role.Table, "", RowsMarks(env, rows)), st)
    decreases rows, 1
  {
    hide PlainEnv, Outputs, Mean, ProperRows, LegibleRows, RowThings, RowsMarks, Environment, FindEnviron;
    TabularIs();
    OpenTag("table");
    CloseTag("table");
    TableRole();
    RowsOutputs(env, rows, Fmt3.Count(st, ETabular, 1));
    EnvironmentOutputs(env, "tabular", ETabular, RowThings(rows), st, st, RowsMarks(env, rows),
                       [Begin(Role.Table, "")], [End(Role.Table)]);
  }

  lemma TabularIs()
    ensures FindEnviron("tabular") == Some(ETabular) && FindEnviron("texttt") == Some(ETexttt)
    ensures FindEnviron("quote") == Some(EQuote)
    ensures FindEnviron("enumerate") == Some(EEnumerate) && FindEnviron("itemize") == Some(EItemize)
    ensures FindEnviron("description") == Some(EDescription)
  {}

  lemma TableRole()
    ensures RoleOf("table") == Role.Table
  {}

  lemma {:induction false} CellsOutputs(env: Env, cells: Cells, st: State)
    requires PlainEnv(env) && ProperCells(cells) && LegibleCells(env, cells)
    requires st.tableNesting > 0 && st.textttNesting == 0
    ensures Outputs(env, CellsThings(cells), st, CellsMarks(env, cells), st)
    decreases cells, 0
  {
    hide PlainEnv, ProperCell, LegibleCell, CellMarks, CellThings, Mean, OutOf;
    match cells
    case OneCell(c) => CellOutputs(env, c, st);
    case MoreCells(front, c) =>
      CellsOutputs(env, front, st);
      var mid := OutOf(env, CellsThings(front), st).value.st;
      SameNesting(mid, st);
      CellOutputs(env, c, mid);
      OutputsConcat(env, CellsThings(front), CellThings(c), st, CellsMarks(env, front), CellMarks(env, c), st, st);
  }

  lemma SameNesting(a: State, b: State)
    requires SameState(a, b)
    ensures a.tableNesting == b.tableNesting && a.textttNesting == b.textttNesting
  {
    assert a.(asked := []).tableNesting == b.(asked := []).tableNesting;
    assert a.(asked := []).textttNesting == b.(asked := []).textttNesting;
  }

  lemma {:induction false} RowOutputs(env: Env, cells: Cells, st: State)
    requires PlainEnv(env) && ProperCells(cells) && LegibleCells(env, cells)
    requires st.tableNesting > 0 && st.textttNesting == 0
    ensures Outputs(env, [Command("trow", NoArg, Braced(ParagraphOf(CellsThings(cells))))], st,
                    Within(Role.Row, "", Within(Role.Cell, "", CellsMarks(env, cells))), st)
    decreases cells, 1
  {
    hide PlainEnv, ProperCells, LegibleCells, CellsMarks, CellsThings, FindCmd, ParagraphOf, OutOf, Mean, Within;
    hide ParagraphOut, CmdToks, Given;
    TrowFound();
    var ts, m := CellsThings(cells), CellsMarks(env, cells);
    CellsOutputs(env, cells, st);
    CellsPlain(cells);
    TextGiven(ts);
    NotGiven(env, st);
    OutParagraph(env, ts, st);
    ArgIsParagraph(env, ParagraphOf(ts), st);
    RowMeans(env, OutOf(env, ts, st).value.toks, m);
    CommandOutputs(env, "trow", CTrow, NoArg, Braced(ParagraphOf(ts)), st,
                   Within(Role.Row, "", Within(Role.Cell, "", m)));
  }

  lemma {:induction false} RowsOutputs(env: Env, rows: Rows, st: State)
    requires PlainEnv(env) && ProperRows(rows) && LegibleRows(env, rows)
    requires st.tableNesting > 0 && st.textttNesting == 0
    ensures Outputs(env, RowThings(rows), st, RowsMarks(env, rows), st)
    decreases rows, 0
  {
    hide PlainEnv, ProperCells, LegibleCells, ProperInline, Legible, CellsMarks, CellsThings, ThingOf, InlineMarks;
    hide Mean, OutOf, ParagraphOf, Within;
    match rows
    case NoRow => OutputsNothing(env, st);
    case AddRow(front, cells) =>
      RowsOutputs(env, front, st);
      var mid := OutOf(env, RowThings(front), st).value.st;
      SameNesting(mid, st);
      RowOutputs(env, cells, mid);
      OutputsConcat(env, RowThings(front), [Command("trow", NoArg, Braced(ParagraphOf(CellsThings(cells))))], st,
                    RowsMarks(env, front), Within(Role.Row, "", Within(Role.Cell, "", CellsMarks(env, cells))), st, st);
    case AddGap(front, i) =>
      RowsOutputs(env, front, st);
      var mid := OutOf(env, RowThings(front), st).value.st;
      SameNesting(mid, st);
      InlineOutputs(env, i, mid);
      OutputsConcat(env, RowThings(front), [ThingOf(i)], st, RowsMarks(env, front), InlineMarks(env, i, false), st, st);
  }

  // ----- Blocks -------------------------------------------------------------------------------------

  lemma {:induction false} ItemOutputs(env: Env, i: Item, st: State)
    requires PlainEnv(env) && ProperItem(i) && LegibleItems(env, AddItem(NoItem, i)) && st.textttNesting == 0
    ensures Outputs(env, [ItemThing(i)], st, ItemMarks(env, i), st)
  {
    match i
    case Bare(body) => BareOutputs(env, body, st);
    case Named(term, body) => NamedOutputs(env, term, body, st);
    case Gap(inline) => InlineOutputs(env, inline, st);
  }

  lemma BareOutputs(env: Env, body: Inlines, st: State)
    requires PlainEnv(env) && ProperInlines(body) && LegibleText(env, body) && st.textttNesting == 0
    ensures Outputs(env, [Command("item", NoArg, Written(body))], st,
                    Within(Role.ListItem, "", TextMarks(env, body, false)), st)
  {
    hide PlainEnv, ProperInlines, LegibleText, TextMarks, Outputs, Mean, Within, FindCmd, Written, Given, ArgOut;
    hide CmdToks;
    ItemFound();
    TextArg(env, body, st);
    ItemMeans(env, ArgOut(env, Written(body), st).value.toks, TextMarks(env, body, false));
    OneTextOutputs(env, "item", CItem, body, st, TextMarks(env, body, false),
                   Within(Role.ListItem, "", TextMarks(env, body, false)));
  }

  lemma NamedOutputs(env: Env, term: Inlines, body: Inlines, st: State)
    requires PlainEnv(env) && ProperInlines(term) && LegibleText(env, term) && st.textttNesting == 0
    requires ProperInlines(body) && LegibleText(env, body)
    ensures Outputs(env, [Command("item", Written(term), Written(body))], st,
                    Within(Role.Term, "", TextMarks(env, term, false))
                    + Within(Role.Definition, "", TextMarks(env, body, false)), st)
  {
    hide PlainEnv, ProperInlines, LegibleText, TextMarks, Outputs, Mean, Within, FindCmd, Written, Given, ArgOut;
    hide CmdToks;
    var m, n := TextMarks(env, term, false), TextMarks(env, body, false);
    ItemFound();
    TextArg(env, term, st);
    var mid := AfterArg(env, term, st, m);
    TextArg(env, body, mid);
    NamedItemMeans(env, ArgOut(env, Written(body), mid).value.toks, n, ArgOut(env, Written(term), st).value.toks, m);
    TwoTextsOutput(env, "item", CItem, term, body, st, m, n,
                   Within(Role.Term, "", m) + Within(Role.Definition, "", n));
  }

  lemma {:induction false} ItemsOutputs(env: Env, items: Items, st: State)
    requires PlainEnv(env) && ProperItems(items) && LegibleItems(env, items) && st.textttNesting == 0
    ensures Outputs(env, ItemThings(items), st, ItemsMarks(env, items), st)
  {
    hide PlainEnv, ProperItem, ItemMarks, ItemThing, Mean, OutOf, LegibleText, Legible;
    match items
    case NoItem => OutputsNothing(env, st);
    case AddItem(front, i) =>
      ItemsOutputs(env, front, st);
      var mid := OutOf(env, ItemThings(front), st).value.st;
      SameNesting(mid, st);
      ItemOutputs(env, i, mid);
      OutputsConcat(env, ItemThings(front), [ItemThing(i)], st, ItemsMarks(env, front), ItemMarks(env, i), st, st);
  }

  /** Outside of tables and verbatim environments. */
  predicate AtTop(st: State)
  {
    st.tableNesting == 0 && st.textttNesting == 0
  }

  lemma HeadingOutputs(env: Env, name: string, title: Inlines, st: State)
    requires PlainEnv(env) && name in HEADINGS && ProperInlines(title) && LegibleText(env, title) && AtTop(st)
    ensures Outputs(env, [Command(name, NoArg, Written(title))], st,
                    HeadingMarks(name, TextMarks(env, title, false)), st)
  {
    hide PlainEnv, ProperInlines, LegibleText, TextMarks, Outputs, Mean, HeadingMarks, FindCmd, Written, Given, ArgOut;
    hide CmdToks;
    HeadingFound(name);
    TextArg(env, title, st);
    var m := TextMarks(env, title, false);
    HeadingMeans(env, name, ArgOut(env, Written(title), st).value.toks, m);
    OneTextOutputs(env, name, FindCmd(name).value, title, st, m, HeadingMarks(name, m));
  }

  lemma RawOutputs(env: Env, t: Thing, st: State)
    requires (t.Verbatim? && PlainText(t.text)) || t.ListingEnv?
    ensures Outputs(env, [t], st, BlockMarks(env, Raw(t)), st)
  {
    RawPrints(env, t, st);
    hide Mean, Outputs, ThingOut, Says, Between, Within, Fmt3.Preformatted, Spell;
    if t.Verbatim? {
      MeanPlain(t.text);
      MeanBreak([Text(t.text)], Spell(t.text));
      assert [Close("p")] + [Text(t.text)] + [Open("p", [])] == [Close("p"), Text(t.text), Open("p", [])];
    } else {
      EscapedSays(t.text);
      PreformattedMeans(HtmlEscape(t.text), t.text);
    }
    OutputsOne(env, t, st, BlockMarks(env, Raw(t)), st);
  }

  lemma RawPrints(env: Env, t: Thing, st: State)
    requires t.Verbatim? || t.ListingEnv?
    ensures ThingOut(env, t, st)
         == Ok(Out(if t.Verbatim? then [Close("p"), Text(t.text), Open("p", [])]
                   else Fmt3.Preformatted(HtmlEscape(t.text)), st))
  {
    hide ArgOut, Process;
  }

  lemma FileReads(env: Env, fname: string)
    requires PlainEnv(env) && PlainText(fname)
    ensures Says(ListingText(env, fname), FileText(env, fname))
  {
    hide Says;
    var path := env.dataDir + "/posts/" + Decimal(env.postId) + "/" + fname;
    if path in env.files {
      EscapedSays(env.files[path].content);
    } else {
      DecimalPlain(env.postId);
      PlainTextSays(FileText(env, fname));
    }
  }

  lemma DecimalPlain(n: nat)
    ensures PlainText(Decimal(n))
  {
    DecimalValue(n);
  }

  lemma IncludedOutputs(env: Env, fname: string, st: State)
    requires PlainEnv(env) && PlainText(fname)
    ensures Outputs(env, [Command("listing", NoArg, Name(fname))], st, CodeMarks(Spell(FileText(env, fname))), st)
  {
    IncludedPrints(env, fname, st);
    hide Mean, Outputs, ThingOut, Says, ListingText, FileText, CodeMarks, Fmt3.Preformatted, PlainEnv;
    FileReads(env, fname);
    PreformattedMeans(ListingText(env, fname), FileText(env, fname));
    CodeIs(Spell(FileText(env, fname)));
    OutputsOne(env, Command("listing", NoArg, Name(fname)), st, CodeMarks(Spell(FileText(env, fname))), st);
  }

  lemma CodeIs(m: seq<Mark>)
    ensures CodeMarks(m) == Between(Within(Role.Preformatted, "", m))
  {}

  lemma IncludedPrints(env: Env, fname: string, st: State)
    ensures var out := ThingOut(env, Command("listing", NoArg, Name(fname)), st);
            && out.Ok? && out.value.toks == Fmt3.Preformatted(ListingText(env, fname))
            && SameState(out.value.st, st)
  {
    hide ListingText, Fmt3.Preformatted;
    WordArg(env, fname, st, []);
    NotGiven(env, st);
    assert FindCmd("listing") == Some(CListing);
  }

  lemma ListOutputs(env: Env, kind: string, items: Items, st: State)
    requires PlainEnv(env) && kind in LISTS && ProperItems(items) && LegibleItems(env, items) && AtTop(st)
    ensures Outputs(env, Environment(kind, ItemThings(items)), st,
                    Between(Within(ListRole(kind), "", ItemsMarks(env, items))), st)
  {
    hide PlainEnv, ProperItems, LegibleItems, Outputs, ItemThings, ItemsMarks, Environment, FindEnviron, Between;
    hide Within;
    TabularIs();
    ListRoles();
    ItemsOutputs(env, items, st);
    if kind == "enumerate" {
      PlainEnvironment(env, kind, EEnumerate, "ol", ItemThings(items), st, ItemsMarks(env, items));
    } else if kind == "itemize" {
      PlainEnvironment(env, kind, EItemize, "ul", ItemThings(items), st, ItemsMarks(env, items));
    } else {
      PlainEnvironment(env, kind, EDescription, "dl", ItemThings(items), st, ItemsMarks(env, items));
    }
  }

  lemma ListRoles()
    ensures RoleOf("ol") == Role.NumberedList && RoleOf("ul") == Role.BulletList && RoleOf("dl") == Role.DefinitionList
    ensures RoleOf("pre") == Role.Preformatted
  {}

  lemma CodeOutputs(env: Env, body: Inlines, st: State)
    requires PlainEnv(env) && ProperInlines(body) && LegibleText(env, body) && AtTop(st)
    ensures Outputs(env, Environment("texttt", Things(body)), st, CodeMarks(TextMarks(env, body, true)), st)
  {
    hide PlainEnv, ProperInlines, LegibleText, Outputs, Things, TextMarks, Environment, FindEnviron, Between, Within;
    TabularIs();
    ListRoles();
    CodeIs(TextMarks(env, body, true));
    TextOutputs(env, body, Fmt3.Count(st, ETexttt, 1));
    PlainEnvironment(env, "texttt", ETexttt, "pre", Things(body), st, TextMarks(env, body, true));
  }

  lemma TableOutputs(env: Env, rows: Rows, st: State)
    requires PlainEnv(env) && ProperRows(rows) && LegibleRows(env, rows) && AtTop(st)
    ensures Outputs(env, Environment("tabular", RowThings(rows)), st,
                    Between(Within(Role.Table, "", RowsMarks(env, rows))), st)
  {
    hide PlainEnv, ProperRows, LegibleRows, Outputs, RowThings, RowsMarks, Environment, FindEnviron, Between, Within;
    TabularIs();
    TableRole();
    RowsOutputs(env, rows, Fmt3.Count(st, ETabular, 1));
    PlainEnvironment(env, "tabular", ETabular, "table", RowThings(rows), st, RowsMarks(env, rows));
  }

  lemma SpecialOutputs(env: Env, t: Thing, st: State)
    requires IsSpecial(t)
    ensures Outputs(env, [t], st, [], Announced(env, st, [t]))
  {
    MeanNothing();
    SpecialPrints(env, t, st);
    hide Mean, Outputs, ThingOut, Announced, IsSpecial;
    OutputsOne(env, t, st, [], Announced(env, st, [t]));
  }

  lemma SpecialPrints(env: Env, t: Thing, st: State)
    requires IsSpecial(t)
    ensures ThingOut(env, t, st) == Ok(Out([], Announced(env, st, [t])))
  {
    hide ArgOut, Process;
    assert DropLast([t]) == [] && Announced(env, st, []) == st;
  }

  lemma {:induction false} AnnouncedConcat(env: Env, st: State, a: seq<Thing>, b: seq<Thing>)
    ensures Announced(env, st, a + b) == Announced(env, Announced(env, st, a), b)
  {
    if b == [] {
      assert a + b == a;
    } else {
      assert DropLast(a + b) == a + DropLast(b) && Last(a + b) == Last(b);
      AnnouncedConcat(env, st, a, DropLast(b));
    }
  }

  /** Announcements do not touch what was asked for, nor depend on it. */
  lemma {:induction false} AnnouncedAlike(env: Env, a: State, b: State, ss: seq<Thing>)
    requires SameState(a, b)
    ensures SameState(Announced(env, a, ss), Announced(env, b, ss))
    ensures Announced(env, a, ss).tableNesting == a.tableNesting
    ensures Announced(env, a, ss).textttNesting == a.textttNesting
  {
    if ss != [] {
      AnnouncedAlike(env, a, b, DropLast(ss));
      var x, y := Announced(env, a, DropLast(ss)), Announced(env, b, DropLast(ss));
      assert x.(asked := []).tags == y.(asked := []).tags;
      AnnounceOne(env, x, y, Last(ss));
    }
  }

  lemma AnnounceOne(env: Env, x: State, y: State, t: Thing)
    requires SameState(x, y)
    ensures SameState(Announced(env, x, [t]), Announced(env, y, [t]))
  {
    assert DropLast([t]) == [] && Announced(env, x, []) == x && Announced(env, y, []) == y;
    assert x.(asked := []) == y.(asked := []);
    assert x == x.(asked := []).(asked := x.asked) && y == x.(asked := []).(asked := y.asked);
  }

  lemma {:induction false} BlockOutputs(env: Env, b: Block, st: State)
    requires PlainEnv(env) && ProperBlock(b) && LegibleBlock(env, b) && AtTop(st)
    ensures Outputs(env, BlockThings(b), st, BlockMarks(env, b), Announced(env, st, BlockSpecials(b)))
    decreases b, 0
  {
    hide PlainEnv, Outputs, ProperInline, ProperInlines, ProperItems, ProperRows, Legible, LegibleText, LegibleItems;
    hide LegibleRows, InlineMarks, TextMarks, ItemsMarks, RowsMarks, HeadingMarks, CodeMarks, Between, Within, FileText;
    hide ThingOf, Written, Things, ItemThings, RowThings, Environment, Name, FindEnviron, FindCmd, Spell, PlainText;
    match b
    case Plain(i) => InlineOutputs(env, i, st);
    case Special(t) => SpecialOutputs(env, t, st);
    case Heading(name, title) => HeadingOutputs(env, name, title, st);
    case Raw(t) => RawOutputs(env, t, st);
    case Included(fname) => IncludedOutputs(env, fname, st);
    case List(kind, items) => ListOutputs(env, kind, items, st);
    case Code(body) => CodeOutputs(env, body, st);
    case Quote(quoted) => QuoteOutputs(env, quoted, st);
    case Table(rows) => TableOutputs(env, rows, st);
  }

  lemma {:induction false} QuoteOutputs(env: Env, quoted: Blocks, st: State)
    requires PlainEnv(env) && ProperBlocks(quoted) && LegibleBlocks(env, quoted) && AtTop(st)
    ensures Outputs(env, Environment("quote", Flatten(quoted)), st,
                    Between(Within(Role.Quotation, "", Within(Role.Paragraph, "", BlocksMarks(env, quoted)))),
                    Announced(env, st, BlocksSpecials(quoted)))
    decreases quoted, 1
  {
    hide PlainEnv, Outputs, Mean, ProperBlocks, LegibleBlocks, Flatten, BlocksMarks, Environment, FindEnviron, Between;
    hide Within, Announced;
    TabularIs();
    QuoteMeans();
    QuoteParts(BlocksMarks(env, quoted));
    AnnouncedAlike(env, st, st, BlocksSpecials(quoted));
    BlocksOutputs(env, quoted, st);
    EnvironmentOutputs(env, "quote", EQuote, Flatten(quoted), st, Announced(env, st, BlocksSpecials(quoted)),
                       BlocksMarks(env, quoted),
                       [End(Role.Paragraph), Begin(Role.Quotation, ""), Begin(Role.Paragraph, "")],
                       [End(Role.Paragraph), End(Role.Quotation), Begin(Role.Paragraph, "")]);
  }

  lemma {:induction false} BlocksOutputs(env: Env, bs: Blocks, st: State)
    requires PlainEnv(env) && ProperBlocks(bs) && LegibleBlocks(env, bs) && AtTop(st)
    ensures Outputs(env, Flatten(bs), st, BlocksMarks(env, bs), Announced(env, st, BlocksSpecials(bs)))
    decreases bs, 0
  {
    hide PlainEnv, ProperBlock, LegibleBlock, BlockThings, BlockMarks, BlockSpecials, Announced, Mean, OutOf;
    match bs
    case NoBlock =>
      OutputsNothing(env, st);
      NothingAnnounced(env, st);
    case AddBlock(front, b) =>
      var ss, more := BlocksSpecials(front), BlockSpecials(b);
      BlocksOutputs(env, front, st);
      var mid := OutOf(env, Flatten(front), st).value.st;
      AnnouncedAlike(env, st, st, ss);
      SameNesting(mid, Announced(env, st, ss));
      BlockOutputs(env, b, mid);
      AnnouncedAlike(env, mid, Announced(env, st, ss), more);
      AnnouncedConcat(env, st, ss, more);
      OutputsConcat(env, Flatten(front), BlockThings(b), st, BlocksMarks(env, front), BlockMarks(env, b),
                    Announced(env, st, ss), Announced(env, st, ss + more));
  }

  lemma NothingAnnounced(env: Env, st: State)
    ensures Announced(env, st, []) == st
  {}

  // ----- Posts --------------------------------------------------------------------------------------

  /** A paragraph of the post. */
  lemma WholeOutputs(env: Env, bs: Blocks, st: State)
    requires PlainEnv(env) && bs.AddBlock? && ProperBlocks(bs) && LegibleBlocks(env, bs) && AtTop(st)
    ensures var out := ParagraphOut(env, ParagraphOf(Flatten(bs)), st);
            && out.Ok? && SameState(out.value.st, Announced(env, st, BlocksSpecials(bs)))
            && Mean(WrapParagraph(out.value.toks),
                    Within(Role.Paragraph, "", BlocksMarks(env, bs)) + Spell("\n"))
  {
    hide PlainEnv, ProperBlocks, LegibleBlocks, Mean, OutOf, ParagraphOut, Flatten, BlocksMarks, Announced, ParagraphOf;
    BlocksOutputs(env, bs, st);
    OutParagraph(env, Flatten(bs), st);
    var toks, m := OutOf(env, Flatten(bs), st).value.toks, BlocksMarks(env, bs);
    MeanElem("p", toks, m);
    MeanPlain("\n");
    MeanConcat(MathMl.Elem("p", toks), [Text("\n")], Within(Role.Paragraph, "", m), Spell("\n"));
    assert WrapParagraph(toks) == MathMl.Elem("p", toks) + [Text("\n")];
  }

  lemma {:induction false} ParagraphsOutput(env: Env, post: Post)
    requires PlainEnv(env) && ProperPost(post) && LegiblePost(env, post)
    ensures var out := ParagraphsOut(env, ParagraphsOf(post), INITIAL);
            && out.Ok? && Mean(out.value.toks, PostMarks(env, post))
            && SameState(out.value.st, Announced(env, INITIAL, Specials(post)))
  {
    hide PlainEnv, ProperBlocks, LegibleBlocks, Mean, ParagraphOut, Flatten, BlocksMarks, Announced, ParagraphOf;
    hide WrapParagraph, Within, BlocksSpecials, Spell;
    match post
    case Only(bs) =>
      WholeOutputs(env, bs, INITIAL);
      assert [] + BlocksSpecials(bs) == BlocksSpecials(bs);
      var m := Within(Role.Paragraph, "", BlocksMarks(env, bs));
      assert [] + m + Spell("\n") == m + Spell("\n");
    case Then(front, bs) =>
      ParagraphsOutput(env, front);
      var a := ParagraphsOut(env, ParagraphsOf(front), INITIAL).value;
      var ss, more := Specials(front), BlocksSpecials(bs);
      AnnouncedAlike(env, INITIAL, INITIAL, ss);
      SameNesting(a.st, Announced(env, INITIAL, ss));
      WholeOutputs(env, bs, a.st);
      AnnouncedAlike(env, a.st, Announced(env, INITIAL, ss), more);
      AnnouncedConcat(env, INITIAL, ss, more);
      var b := ParagraphOut(env, ParagraphOf(Flatten(bs)), a.st).value;
      var m := Within(Role.Paragraph, "", BlocksMarks(env, bs));
      MeanConcat(a.toks, WrapParagraph(b.toks), PostMarks(env, front), m + Spell("\n"));
      assert PostMarks(env, front) + (m + Spell("\n")) == PostMarks(env, front) + m + Spell("\n");
  }

  /** The theorem: the characters of the compiled post read as the post means, and its
      title, date, tags and image are what it says about itself. */
  lemma PostsReadAsMeant(env: Env, post: Post)
    requires PlainEnv(env) && ProperPost(post) && LegiblePost(env, post)
    ensures var out := Compile(env, Document(ParagraphsOf(post)));
            && out.Ok? && Read(Serialize(out.value.toks)) == PostMarks(env, post)
            && SameState(out.value.st, Announced(env, INITIAL, Specials(post)))
  {
    hide PlainEnv, ProperPost, LegiblePost, ParagraphsOut, Announced, Read;
    ParagraphsOutput(env, post);
    ReadSerialized(ParagraphsOut(env, ParagraphsOf(post), INITIAL).value.toks);
  }
}
