/**
 The compiler from post format 3 to HTML: the grammar of post_fmt3.y and the
 commands of post_fmt3_cmds.c.  Parse trees come from the grammar; the functions
 here give the effect of its actions, which run children first and from left to
 right.  Fmt3Parser holds the actions themselves.
 */
module Fmt3 {
  import opened Basics
  import opened Escape
  import opened Html
  import opened MathMl
  import opened Posts

  // ----- Parse trees -------------------------------------------------------------------

  datatype Paragraph = Start(t: Thing) | Append(p: Paragraph, t: Thing)

  datatype Paragraphs = Single(p: Paragraph) | Next(ps: Paragraphs, p: Paragraph)

  /** Without paragraphs the post is a lone paragraph break. */
  datatype Document = NoParagraphs | Document(ps: Paragraphs)

  datatype Thing =
    | Word(s: string)                 // WORD, UTF8CHAR, WSPACE and CHAR
    | Newline
    | Dash(n: nat)
    | OpenQuote(n: nat)
    | CloseQuote(n: nat)
    | Special(c: char)                // SCHAR
    | Ellipsis
    | NoBreak                         // ~
    | Ampersand
    | Dollar
    | Percent
    | Command(name: string, opt: Arg, arg: Arg)
    | Escaped(c: char)                // a backslash and one of \ { } [ ] & _ ^ ~
    | MathEnv(m: MathList)
    | Verbatim(text: string)
    | ListingEnv(text: string)
    | TitleCmd(text: string)
    | PublishedCmd(text: string)
    | TagCmd(text: string)
    | TwitterImgCmd(text: string)
    | TwitterPhotoCmd(text: string)

  datatype Arg = NoArg | Braced(p: Paragraph)

  /** The part of parser_output the actions change, and the files they ask for. */
  datatype State = State(
    tableNesting: int,
    textttNesting: int,
    title: Option<string>,
    published: Option<string>,
    tags: seq<string>,
    twitterImg: Option<string>,
    asked: seq<string>)

  const INITIAL := State(0, 0, None, None, [], None, [])

  /** Configuration, the post's id and the current files. */
  datatype Env = Env(
    dataDir: string,
    baseUrl: string,
    photoUrl: string,
    wikiUrl: string,
    bugUrl: string,
    strerror: string,
    postId: nat,
    files: Files)

  datatype Out = Out(toks: seq<Tok>, st: State)

  // ----- Commands ------------------------------------------------------------------------

  datatype Cmd =
    | CAbbrev | CBegin | CBug | CDegree | CEmph | CEnd | CImg | CItem | CLeftArrow | CLeftRightArrow
    | CLink | CListing | CNop | CPhoto | CPhotoLink | CPost | CRightArrow | CSection | CSubsection
    | CSubsubsection | CTagLink | CTextBf | CTextIt | CTextTt | CTm | CTrow | CWiki

  /** The table of commands. */
  function FindCmd(name: string): Option<Cmd>
  {
    match name
    case "abbrev" => Some(CAbbrev)
    case "begin" => Some(CBegin)
    case "bug" => Some(CBug)
    case "category" => Some(CNop)
    case "degree" => Some(CDegree)
    case "emph" => Some(CEmph)
    case "end" => Some(CEnd)
    case "img" => Some(CImg)
    case "item" => Some(CItem)
    case "leftarrow" => Some(CLeftArrow)
    case "leftrightarrow" => Some(CLeftRightArrow)
    case "link" => Some(CLink)
    case "listing" => Some(CListing)
    case "photo" => Some(CPhoto)
    case "photolink" => Some(CPhotoLink)
    case "post" => Some(CPost)
    case "published" => Some(CNop)
    case "rightarrow" => Some(CRightArrow)
    case "section" => Some(CSection)
    case "subsection" => Some(CSubsection)
    case "subsubsection" => Some(CSubsubsection)
    case "tag" => Some(CNop)
    case "taglink" => Some(CTagLink)
    case "textbf" => Some(CTextBf)
    case "textit" => Some(CTextIt)
    case "texttt" => Some(CTextTt)
    case "title" => Some(CNop)
    case "tm" => Some(CTm)
    case "trow" => Some(CTrow)
    case "wiki" => Some(CWiki)
    case _ => None
  }

  predicate TakesNoArg(c: Cmd)
  {
    c.CLeftArrow? || c.CLeftRightArrow? || c.CRightArrow? || c.CTm?
  }

  predicate MayTakeOpt(c: Cmd)
  {
    c.CAbbrev? || c.CImg? || c.CItem? || c.CLink? || c.CListing? || c.CPhoto? || c.CPhotoLink?
    || c.CPost? || c.CTagLink? || c.CWiki?
  }

  /** The two assertions of __check_arg. */
  predicate ArgsFit(c: Cmd, hasArg: bool, hasOpt: bool)
  {
    (hasArg <==> !TakesNoArg(c)) && (hasOpt ==> MayTakeOpt(c))
  }

  datatype Environ = ETexttt | EEnumerate | EItemize | EDescription | EQuote | ETabular

  function FindEnviron(name: string): Option<Environ>
  {
    match name
    case "texttt" => Some(ETexttt)
    case "enumerate" => Some(EEnumerate)
    case "itemize" => Some(EItemize)
    case "description" => Some(EDescription)
    case "quote" => Some(EQuote)
    case "tabular" => Some(ETabular)
    case _ => None
  }

  function InvalidEnviron(txt: seq<Tok>): seq<Tok>
  {
    [Text("[INVAL ENVIRON '")] + txt + [Text("']")]
  }

  /** The element of a list environment. */
  function ListElement(e: Environ): string
  {
    match e
    case ETexttt => "pre"
    case EEnumerate => "ol"
    case EItemize => "ul"
    case EDescription => "dl"
    case EQuote => "blockquote"
    case ETabular => "table"
  }

  function BeginToks(e: Environ, nesting: int): seq<Tok>
  {
    match e
    case EQuote => [Close("p"), Open("blockquote", []), Open("p", [])]
    case ETabular => if nesting != 0 then [Open("table", [])] else [Close("p"), Open("table", [])]
    case _ => [Close("p"), Open(ListElement(e), [])]
  }

  /** `nesting` is the table nesting after the decrement. */
  function EndToks(e: Environ, nesting: int): seq<Tok>
  {
    match e
    case EQuote => [Close("p"), Close("blockquote"), Open("p", [])]
    case ETabular => if nesting != 0 then [Close("table")] else [Close("table"), Open("p", [])]
    case _ => [Close(ListElement(e)), Open("p", [])]
  }

  /** The nesting counters when an environment opens (d = 1) or closes (d = -1). */
  function Count(st: State, e: Environ, d: int): State
  {
    match e
    case ETexttt => st.(textttNesting := st.textttNesting + d)
    case ETabular => st.(tableNesting := st.tableNesting + d)
    case _ => st
  }

  function Begin(txt: seq<Tok>, st: State): Out
  {
    match FindEnviron(Serialize(txt))
    case None => Out(InvalidEnviron(txt), st)
    case Some(e) => Out(BeginToks(e, st.tableNesting), Count(st, e, 1))
  }

  function End(txt: seq<Tok>, st: State): Out
  {
    match FindEnviron(Serialize(txt))
    case None => Out(InvalidEnviron(txt), st)
    case Some(e) => Out(EndToks(e, Count(st, e, -1).tableNesting), Count(st, e, -1))
  }

  function ListingPath(env: Env, fname: string): string
  {
    env.dataDir + "/posts/" + Decimal(env.postId) + "/" + fname
  }

  /** listing.c */
  function ListingText(env: Env, fname: string): string
  {
    match ReadFile(env.files, ListingPath(env, fname))
    case Some(content) => HtmlEscape(content)
    case None => "Failed to read in listing '" + Decimal(env.postId) + "/" + fname + "': " + env.strerror
  }

  lemma ListingTextTagFree(env: Env, fname: string)
    requires TagFree(env.strerror) && TagFree(fname)
    ensures TagFree(ListingText(env, fname))
  {
    DecimalTagFree(env.postId);
    if ListingPath(env, fname) in env.files {
      HtmlEscapeIsTagFree(env.files[ListingPath(env, fname)].content);
    }
  }

  lemma {:induction false} DecimalTagFree(n: nat)
    ensures TagFree(Decimal(n))
  {
    if n >= 10 {
      DecimalTagFree(n / 10);
    }
  }

  function Preformatted(text: string): seq<Tok>
  {
    [Close("p"), Open("pre", []), Text(text), Close("pre"), Open("p", [])]
  }

  function Link(href: string, body: seq<Tok>): seq<Tok>
  {
    [Open("a", [Attr("href", href)])] + body + [Close("a")]
  }

  function Image(src: string, alt: string): seq<Tok>
  {
    [Void("img", [Attr("src", src), Attr("alt", alt)])]
  }

  /** snprintf into a buffer of 1024 bytes. */
  function Truncate(toks: seq<Tok>): seq<Tok>
  {
    if |Serialize(toks)| < 1024 then toks else [Text(Serialize(toks)[..1023])]
  }

  function Heading(name: string, txt: seq<Tok>): seq<Tok>
  {
    [Close("p")] + Elem(name, txt) + [Open("p", [])]
  }

  function IconLink(href: string, icon: string, alt: string, body: seq<Tok>): seq<Tok>
  {
    Link(href, Image(icon, alt) + [Text("&nbsp;")] + body)
  }

  /** The output of a command other than begin and end.  `opt` is empty for a
      command written without one. */
  function CmdToks(env: Env, c: Cmd, txt: seq<Tok>, hasOpt: bool, opt: seq<Tok>): seq<Tok>
  {
    var s := Serialize(txt);
    var caption := if hasOpt then opt else txt;
    match c
    case CAbbrev => [Open("abbr", [Attr("title", Serialize(caption))])] + txt + [Close("abbr")]
    case CBug => IconLink(env.bugUrl + "/" + s, env.baseUrl + "/bug.png", "bug #", txt)
    case CDegree => [Text("\U{C2}\U{B0}")] + txt
    case CEmph => Elem("em", txt)
    case CImg => Image(s, Serialize(opt))
    case CItem => if hasOpt then Elem("dt", opt) + Elem("dd", txt) else Elem("li", txt)
    case CLeftArrow => [Text("&larr;")]
    case CLeftRightArrow => [Text("&harr;")]
    case CLink => Link(s, caption)
    case CListing => Preformatted(ListingText(env, s))
    case CNop => []
    case CPhoto => Image(env.photoUrl + "/" + s, Serialize(opt))
    case CPhotoLink => Link(env.photoUrl + "/" + s, caption)
    case CPost => Truncate(Link(env.baseUrl + "/?p=" + s, caption))
    case CRightArrow => [Text("&rarr;")]
    case CSection => Heading("h3", txt)
    case CSubsection => Heading("h4", txt)
    case CSubsubsection => Heading("h5", txt)
    case CTagLink => Truncate(Link(env.baseUrl + "/?tag=" + s, caption))
    case CTextBf => Elem("strong", txt)
    case CTextIt => Elem("i", txt)
    case CTextTt => [Open("span", [Attr("class", "tt")])] + txt + [Close("span")]
    case CTm => [Text("&trade;")]
    case CTrow => Elem("tr", Elem("td", txt))
    case CWiki => IconLink(env.wikiUrl + "/" + s, env.baseUrl + "/wiki.png", "Wikipedia article:", caption)
    case CBegin => []
    case CEnd => []
  }

  /** process_cmd */
  function Process(env: Env, name: string, hasArg: bool, txt: seq<Tok>, hasOpt: bool, opt: seq<Tok>, st: State)
    : Result<Out>
  {
    match FindCmd(name)
    case None => Ok(Out([Text("[INVAL CMD '" + name + "']")], st))
    case Some(c) =>
      if !ArgsFit(c, hasArg, hasOpt) then Panic(BadCommandArg)
      else if c.CBegin? then Ok(Begin(txt, st))
      else if c.CEnd? then Ok(End(txt, st))
      else
        Ok(Out(CmdToks(env, c, txt, hasOpt, opt),
               if c.CListing? then st.(asked := st.asked + [ListingPath(env, Serialize(txt))]) else st))
  }

  // ----- Actions ---------------------------------------------------------------------------

  const DASHES: seq<string> := ["", "-", "&ndash;", "&mdash;"]
  const OQUOTES: seq<string> := ["", "&lsquo;", "&ldquo;"]
  const CQUOTES: seq<string> := ["", "&rsquo;", "&rdquo;"]

  /** __char_cvt; the lexer only makes tokens of a length in the table. */
  function CharCvt(table: seq<string>, n: nat): string
  {
    if n < |table| then table[n] else ""
  }

  function SpecialChar(c: char): string
  {
    match c
    case '"' => "&quot;"
    case '<' => "&lt;"
    case _ => "&gt;"
  }

  /** The productions of `cmd` for a single character. */
  function EscapedTok(c: char): Tok
  {
    match c
    case '\\' => Void("br", [])
    case '&' => Text("&amp;")
    case _ => Text([c])
  }

  /** A `thing` that is not a command: its output. */
  function SimpleToks(t: Thing, textttNesting: int): seq<Tok>
    requires !t.Command?
  {
    match t
    case Word(s) => [Text(s)]
    case Newline => [Text(if textttNesting != 0 then "\n" else " ")]
    case Dash(n) => [Text(CharCvt(DASHES, n))]
    case OpenQuote(n) => [Text(CharCvt(OQUOTES, n))]
    case CloseQuote(n) => [Text(CharCvt(CQUOTES, n))]
    case Special(c) => [Text(SpecialChar(c))]
    case Ellipsis => [Text("&hellip;")]
    case NoBreak => [Text("&nbsp;")]
    case Ampersand => [Close("td"), Open("td", [])]
    case Dollar => [Text("$")]
    case Percent => [Text("%")]
    case Escaped(c) => [EscapedTok(c)]
    case MathEnv(m) => Elem("math", MathToks(m))
    case Verbatim(text) => [Close("p"), Text(text), Open("p", [])]
    case ListingEnv(text) => Preformatted(HtmlEscape(text))
    case TitleCmd(_) => []
    case PublishedCmd(_) => []
    case TagCmd(_) => []
    case TwitterImgCmd(_) => []
    case TwitterPhotoCmd(_) => []
  }

  /** The special commands; their semantic value is NULL. */
  predicate IsSpecial(t: Thing)
  {
    t.TitleCmd? || t.PublishedCmd? || t.TagCmd? || t.TwitterImgCmd? || t.TwitterPhotoCmd?
  }

  /** Whether a command gets an argument: a paragraph that is a lone special
      command is NULL and counts as none. */
  predicate Given(a: Arg)
  {
    a.Braced? && !(a.p.Start? && IsSpecial(a.p.t))
  }

  /** special_cmd and special_cmd_list */
  function SimpleState(env: Env, t: Thing, st: State): State
  {
    match t
    case TitleCmd(text) => st.(title := Some(text))
    case PublishedCmd(text) => st.(published := Some(text))
    case TagCmd(text) => st.(tags := [text] + st.tags)
    case TwitterImgCmd(text) => st.(twitterImg := Some(text))
    case TwitterPhotoCmd(text) => st.(twitterImg := Some(env.photoUrl + "/" + text))
    case _ => st
  }

  function ThingOut(env: Env, t: Thing, st: State): Result<Out>
  {
    if !t.Command? then Ok(Out(SimpleToks(t, st.textttNesting), SimpleState(env, t, st)))
    else
      match ArgOut(env, t.opt, st)
      case Panic(f) => Panic(f)
      case Ok(opt) =>
        match ArgOut(env, t.arg, opt.st)
        case Panic(f) => Panic(f)
        case Ok(arg) => Process(env, t.name, Given(t.arg), arg.toks, Given(t.opt), opt.toks, arg.st)
  }

  function ArgOut(env: Env, a: Arg, st: State): Result<Out>
  {
    match a
    case NoArg => Ok(Out([], st))
    case Braced(p) => ParagraphOut(env, p, st)
  }

  function ParagraphOut(env: Env, p: Paragraph, st: State): Result<Out>
  {
    match p
    case Start(t) => ThingOut(env, t, st)
    case Append(q, t) =>
      match ParagraphOut(env, q, st)
      case Panic(f) => Panic(f)
      case Ok(a) =>
        match ThingOut(env, t, a.st)
        case Panic(f) => Panic(f)
        case Ok(b) => Ok(Out(a.toks + b.toks, b.st))
  }

  function WrapParagraph(toks: seq<Tok>): seq<Tok>
  {
    [Open("p", [])] + toks + [Close("p"), Text("\n")]
  }

  function ParagraphsOut(env: Env, ps: Paragraphs, st: State): Result<Out>
  {
    match ps
    case Single(p) =>
      (match ParagraphOut(env, p, st)
       case Panic(f) => Panic(f)
       case Ok(a) => Ok(Out(WrapParagraph(a.toks), a.st)))
    case Next(qs, p) =>
      match ParagraphsOut(env, qs, st)
      case Panic(f) => Panic(f)
      case Ok(a) =>
        match ParagraphOut(env, p, a.st)
        case Panic(f) => Panic(f)
        case Ok(b) => Ok(Out(a.toks + WrapParagraph(b.toks), b.st))
  }

  /** fmt3_parse from the initial parser state. */
  function Compile(env: Env, doc: Document): Result<Out>
  {
    match doc
    case NoParagraphs => Ok(Out([], INITIAL))
    case Document(ps) => ParagraphsOut(env, ps, INITIAL)
  }
}
