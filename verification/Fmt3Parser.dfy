/**
 The parser actions of post_fmt3.y and post_fmt3_cmds.c as they run: the nesting
 counters and the special commands live in the parser's fields, and listings are
 read through the post, which records their revisions.
 */
module Fmt3Parser {
  import opened Basics
  import opened Escape
  import opened Html
  import opened MathMl
  import opened Posts
  import opened Fmt3

  /** The result of an action agrees with the function that specifies it. */
  predicate Agrees(r: Result<seq<Tok>>, st: State, spec: Result<Out>)
  {
    match spec
    case Panic(f) => r == Panic(f)
    case Ok(out) => r == Ok(out.toks) && st == out.st
  }

  class ParserOutput {
    const post: Post
    const cache: FileCache
    /** What the post had asked for when parsing began. */
    ghost const before: seq<string>
    var tableNesting: int
    var textttNesting: int
    var title: Option<string>
    var published: Option<string>
    var tags: seq<string>
    var twitterImg: Option<string>

    constructor (post: Post, cache: FileCache)
      requires post.files == Record(cache.files, post.asked)
      ensures this.post == post && this.cache == cache && before == post.asked
      ensures Valid() && St() == INITIAL
    {
      this.post, this.cache, before := post, cache, post.asked;
      tableNesting, textttNesting := 0, 0;
      title, published, tags, twitterImg := None, None, [], None;
    }

    ghost predicate Valid()
      reads this, post, cache
    {
      && before <= post.asked
      && post.files == Record(cache.files, post.asked)
    }

    /** The parser's fields and the paths asked for since the start. */
    ghost function St(): State
      requires before <= post.asked
      reads this, post
    {
      State(tableNesting, textttNesting, title, published, tags, twitterImg, post.asked[|before|..])
    }

    ghost predicate ValidFor(env: Env)
      reads this, post, cache
    {
      Valid() && env.files == cache.files && env.postId == post.id
    }

    method Begin(txt: seq<Tok>) returns (toks: seq<Tok>)
      requires Valid()
      modifies `tableNesting, `textttNesting
      ensures Valid() && Out(toks, St()) == Fmt3.Begin(txt, old(St()))
    {
      var found := FindEnviron(Serialize(txt));
      if found.None? {
        return InvalidEnviron(txt);
      }
      match found.value
      case ETexttt =>
        textttNesting := textttNesting + 1;
        toks := [Close("p"), Open("pre", [])];
      case EEnumerate => toks := [Close("p"), Open("ol", [])];
      case EItemize => toks := [Close("p"), Open("ul", [])];
      case EDescription => toks := [Close("p"), Open("dl", [])];
      case EQuote => toks := [Close("p"), Open("blockquote", []), Open("p", [])];
      case ETabular =>
        var nested := tableNesting != 0;
        tableNesting := tableNesting + 1;
        toks := if nested then [Open("table", [])] else [Close("p"), Open("table", [])];
    }

    method End(txt: seq<Tok>) returns (toks: seq<Tok>)
      requires Valid()
      modifies `tableNesting, `textttNesting
      ensures Valid() && Out(toks, St()) == Fmt3.End(txt, old(St()))
    {
      var found := FindEnviron(Serialize(txt));
      if found.None? {
        return InvalidEnviron(txt);
      }
      match found.value
      case ETexttt =>
        textttNesting := textttNesting - 1;
        toks := [Close("pre"), Open("p", [])];
      case EEnumerate => toks := [Close("ol"), Open("p", [])];
      case EItemize => toks := [Close("ul"), Open("p", [])];
      case EDescription => toks := [Close("dl"), Open("p", [])];
      case EQuote => toks := [Close("p"), Close("blockquote"), Open("p", [])];
      case ETabular =>
        tableNesting := tableNesting - 1;
        toks := if tableNesting != 0 then [Close("table")] else [Close("table"), Open("p", [])];
    }

    /** listing.c */
    method Listing(env: Env, fname: string) returns (text: string)
      requires ValidFor(env)
      modifies post`files, post`asked
      ensures ValidFor(env) && text == ListingText(env, fname)
      ensures St() == old(St()).(asked := old(St()).asked + [ListingPath(env, fname)])
    {
      var content := post.GetCachedFile(cache, ListingPath(env, fname));
      if content.None? {
        text := "Failed to read in listing '" + Decimal(env.postId) + "/" + fname + "': " + env.strerror;
      } else {
        text := HtmlEscape(content.value);
      }
    }

    method ProcessCmd(env: Env, name: string, hasArg: bool, txt: seq<Tok>, hasOpt: bool, opt: seq<Tok>)
      returns (r: Result<seq<Tok>>)
      requires ValidFor(env)
      modifies this, post`files, post`asked
      ensures ValidFor(env)
      ensures Agrees(r, St(), Process(env, name, hasArg, txt, hasOpt, opt, old(St())))
    {
      var found := FindCmd(name);
      if found.None? {
        return Ok([Text("[INVAL CMD '" + name + "']")]);
      }
      var c := found.value;
      if !ArgsFit(c, hasArg, hasOpt) {
        return Panic(BadCommandArg);
      }
      if c.CBegin? {
        var toks := Begin(txt);
        return Ok(toks);
      }
      if c.CEnd? {
        var toks := End(txt);
        return Ok(toks);
      }
      if c.CListing? {
        var text := Listing(env, Serialize(txt));
        return Ok(Preformatted(text));
      }
      return Ok(CmdToks(env, c, txt, hasOpt, opt));
    }

    /** special_cmd and special_cmd_list */
    method SpecialCmd(env: Env, t: Thing)
      requires Valid() && !t.Command?
      modifies `title, `published, `tags, `twitterImg
      ensures Valid() && St() == SimpleState(env, t, old(St()))
    {
      match t
      case TitleCmd(text) => title := Some(text);
      case PublishedCmd(text) => published := Some(text);
      case TagCmd(text) => tags := [text] + tags;
      case TwitterImgCmd(text) => twitterImg := Some(text);
      case TwitterPhotoCmd(text) => twitterImg := Some(env.photoUrl + "/" + text);
      case _ =>
    }

    method ThingAction(env: Env, t: Thing) returns (r: Result<seq<Tok>>)
      requires ValidFor(env)
      modifies this, post`files, post`asked
      ensures ValidFor(env) && Agrees(r, St(), ThingOut(env, t, old(St())))
      decreases t
    {
      if !t.Command? {
        r := Ok(SimpleToks(t, textttNesting));
        SpecialCmd(env, t);
      } else {
        var opt := ArgAction(env, t.opt);
        if opt.Panic? {
          return opt;
        }
        var arg := ArgAction(env, t.arg);
        if arg.Panic? {
          return arg;
        }
        r := ProcessCmd(env, t.name, Given(t.arg), arg.value, Given(t.opt), opt.value);
      }
    }

    method ArgAction(env: Env, a: Arg) returns (r: Result<seq<Tok>>)
      requires ValidFor(env)
      modifies this, post`files, post`asked
      ensures ValidFor(env) && Agrees(r, St(), ArgOut(env, a, old(St())))
      decreases a
    {
      match a
      case NoArg => r := Ok([]);
      case Braced(p) => r := ParagraphAction(env, p);
    }

    method ParagraphAction(env: Env, p: Paragraph) returns (r: Result<seq<Tok>>)
      requires ValidFor(env)
      modifies this, post`files, post`asked
      ensures ValidFor(env) && Agrees(r, St(), ParagraphOut(env, p, old(St())))
      decreases p
    {
      match p
      case Start(t) =>
        r := ThingAction(env, t);
      case Append(q, t) =>
        var a := ParagraphAction(env, q);
        if a.Panic? {
          return a;
        }
        var b := ThingAction(env, t);
        r := if b.Panic? then b else Ok(a.value + b.value);
    }

    method ParagraphsAction(env: Env, ps: Paragraphs) returns (r: Result<seq<Tok>>)
      requires ValidFor(env)
      modifies this, post`files, post`asked
      ensures ValidFor(env) && Agrees(r, St(), ParagraphsOut(env, ps, old(St())))
      decreases ps
    {
      match ps
      case Single(p) =>
        var a := ParagraphAction(env, p);
        r := if a.Panic? then a else Ok(WrapParagraph(a.value));
      case Next(qs, p) =>
        var a := ParagraphsAction(env, qs);
        if a.Panic? {
          return a;
        }
        var b := ParagraphAction(env, p);
        r := if b.Panic? then b else Ok(a.value + WrapParagraph(b.value));
    }

    /** fmt3_parse on a fresh parser: the `post` rule. */
    method Parse(env: Env, doc: Document) returns (r: Result<seq<Tok>>)
      requires ValidFor(env) && St() == INITIAL
      modifies this, post`files, post`asked
      ensures ValidFor(env) && Agrees(r, St(), Compile(env, doc))
    {
      match doc
      case NoParagraphs => r := Ok([]);
      case Document(ps) => r := ParagraphsAction(env, ps);
    }
  }
}
