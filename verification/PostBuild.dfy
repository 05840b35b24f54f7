/**
 Building a post from its files (post.c).  Which files are read depends on what
 the files before them contain: post.lisp lists the comments, a comment's
 meta.lisp decides whether its text is read, and post.tex names the listings.
 */
module PostBuild {
  import opened Basics
  import opened Html
  import opened Posts
  import opened Tags
  import Fmt3

  /** What is looked up in post.lisp. */
  datatype Meta = Meta(time: Option<string>, title: Option<string>, fmt: nat, listed: bool,
                       tags: seq<string>, comments: seq<nat>)

  /** What is looked up in a comment's meta.lisp. */
  datatype CommentMeta = CommentMeta(moderated: bool, author: Option<string>, email: Option<string>,
                                     time: Option<string>, ip: Option<string>, url: Option<string>)

  /** The configuration, and the parsers of libjeffpc and bison. */
  datatype Site = Site(
    dataDir: string,
    baseUrl: string,
    photoUrl: string,
    wikiUrl: string,
    bugUrl: string,
    strerror: string,
    parseMeta: string -> Option<Meta>,
    parseComment: string -> Option<CommentMeta>,
    parseTex: string -> Option<Fmt3.Document>,
    parseTime: Option<string> -> nat)

  const NO_TEXT := "Error: could not load comment text."

  function PostDir(site: Site, id: nat): string
  {
    site.dataDir + "/posts/" + Decimal(id)
  }

  function LispPath(site: Site, id: nat): string
  {
    PostDir(site, id) + "/post.lisp"
  }

  function TexPath(site: Site, id: nat): string
  {
    PostDir(site, id) + "/post.tex"
  }

  function CommentDir(site: Site, id: nat, commid: nat): string
  {
    PostDir(site, id) + "/comments/" + Decimal(commid)
  }

  function MetaPath(site: Site, id: nat, commid: nat): string
  {
    CommentDir(site, id, commid) + "/meta.lisp"
  }

  function TextPath(site: Site, id: nat, commid: nat): string
  {
    CommentDir(site, id, commid) + "/text.txt"
  }

  function EnvOf(site: Site, id: nat, files: Files): Fmt3.Env
  {
    Fmt3.Env(site.dataDir, site.baseUrl, site.photoUrl, site.wikiUrl, site.bugUrl, site.strerror, id, files)
  }

  /** The parsed contents of a file; None if it is missing or malformed. */
  function Parsed<T>(files: Files, path: string, parse: string -> Option<T>): Option<T>
  {
    match ReadFile(files, path)
    case None => None
    case Some(content) => parse(content)
  }

  datatype Comments = Comments(list: seq<Comment>, asked: seq<string>)

  /** load_comment */
  function CommentText(site: Site, files: Files, id: nat, commid: nat): string
  {
    var text := ReadFile(files, TextPath(site, id, commid));
    if text.Some? then text.value else NO_TEXT
  }

  function CommentOf(site: Site, files: Files, id: nat, commid: nat, meta: CommentMeta): Comment
  {
    Comment(commid, if meta.author.Some? then meta.author.value else "[unknown]", meta.email,
            site.parseTime(meta.time), meta.ip, meta.url, CommentText(site, files, id, commid))
  }

  /** post_add_comment; None if an assertion fails. */
  function AddComment(site: Site, id: nat, files: Files, before: Comments, commid: nat): Option<Comments>
  {
    match Parsed(files, MetaPath(site, id, commid), site.parseComment)
    case None => None
    case Some(meta) =>
      var asked := before.asked + [MetaPath(site, id, commid)];
      if !meta.moderated then Some(Comments(before.list, asked))
      else
        Some(Comments(before.list + [CommentOf(site, files, id, commid, meta)],
                      asked + [TextPath(site, id, commid)]))
  }

  /** post_add_comments after post.lisp has been read. */
  function AddComments(site: Site, id: nat, files: Files, ids: seq<nat>): Option<Comments>
  {
    if ids == [] then Some(Comments([], [LispPath(site, id)]))
    else
      match AddComments(site, id, files, DropLast(ids))
      case None => None
      case Some(before) => AddComment(site, id, files, before, Last(ids))
  }

  datatype Built = Built(data: Data, twitterImg: Option<string>, asked: seq<string>)

  /** __refresh_published followed by __load_post_body, on empty lists. */
  function Build(site: Site, id: nat, files: Files): Option<Built>
  {
    match Parsed(files, LispPath(site, id), site.parseMeta)
    case None => None
    case Some(meta) =>
      match AddComments(site, id, files, meta.comments)
      case None => None
      case Some(comments) => Finish(site, id, files, meta, comments)
  }

  /** __load_post_body */
  function Finish(site: Site, id: nat, files: Files, meta: Meta, comments: Comments): Option<Built>
  {
    if meta.fmt != 3 then None
    else
      match TexOut(site, id, files)
      case None => None
      case Some(out) => Some(Assemble(site, id, meta, comments, out))
  }

  /** What post.tex compiles to. */
  function TexOut(site: Site, id: nat, files: Files): Option<Fmt3.Out>
  {
    match Parsed(files, TexPath(site, id), site.parseTex)
    case None => None
    case Some(doc) =>
      match Fmt3.Compile(EnvOf(site, id, files), doc)
      case Panic(_) => None
      case Ok(out) => Some(out)
  }

  /** post.tex overrides the title and the time and adds to the tags. */
  function WithTex(site: Site, data: Data, out: Fmt3.Out): Data
  {
    data.(title := if out.st.title.Some? then out.st.title else data.title,
          time := if out.st.published.Some? then site.parseTime(out.st.published) else data.time,
          tags := AddTags(data.tags, out.st.tags),
          body := Serialize(out.toks))
  }

  /** __refresh_published, given the body from before. */
  function Published(site: Site, meta: Meta, comments: Comments, body: string): Data
  {
    Data(meta.title, site.parseTime(meta.time), meta.fmt, meta.listed, AddTags([], meta.tags),
         comments.list, |comments.list|, body)
  }

  function Assemble(site: Site, id: nat, meta: Meta, comments: Comments, out: Fmt3.Out): Built
  {
    Built(WithTex(site, Published(site, meta, comments, ""), out), out.st.twitterImg,
          comments.asked + [TexPath(site, id)] + out.st.asked)
  }

  // ----- Previews -------------------------------------------------------------------------------

  /** A refresh of a preview at the time `now`; it leaves the lists as they are. */
  function BuildPreview(site: Site, id: nat, files: Files, now: nat, before: Data): Option<Built>
  {
    match TexOut(site, id, files)
    case None => None
    case Some(out) =>
      Some(Built(WithTex(site, before.(title := Some("PREVIEW"), time := now, fmt := 3), out),
                 out.st.twitterImg, [TexPath(site, id)] + out.st.asked))
  }

  /** A preview shows the text of the published post, and it can be shown whenever
      the post can. */
  lemma PreviewShowsPost(site: Site, id: nat, files: Files, now: nat, before: Data)
    requires Build(site, id, files).Some?
    ensures BuildPreview(site, id, files, now, before).Some?
    ensures BuildPreview(site, id, files, now, before).value.data.body == Build(site, id, files).value.data.body
    ensures BuildPreview(site, id, files, now, before).value.twitterImg == Build(site, id, files).value.twitterImg
  {}

  /** Refreshing a preview once more only moves its time on. */
  lemma PreviewTwice(site: Site, id: nat, files: Files, first: nat, now: nat, before: Data)
    requires BuildPreview(site, id, files, first, before).Some? && TagTree(before.tags)
    ensures BuildPreview(site, id, files, now, BuildPreview(site, id, files, first, before).value.data)
         == BuildPreview(site, id, files, now, before)
  {
    AddTagsTwice(before.tags, TexOut(site, id, files).value.st.tags);
  }

  // ----- The same answers lead to the same questions ------------------------------------------

  /** Two file systems answer the same for every path. */
  predicate SameAnswers(a: Files, b: Files, paths: seq<string>)
  {
    forall p :: p in paths ==> ReadFile(a, p) == ReadFile(b, p)
  }

  lemma {:induction false} AskedGrowsThing(env: Fmt3.Env, t: Fmt3.Thing, st: Fmt3.State)
    requires Fmt3.ThingOut(env, t, st).Ok?
    ensures st.asked <= Fmt3.ThingOut(env, t, st).value.st.asked
    decreases t
  {
    if t.Command? {
      AskedGrowsArg(env, t.opt, st);
      AskedGrowsArg(env, t.arg, Fmt3.ArgOut(env, t.opt, st).value.st);
    }
  }

  lemma {:induction false} AskedGrowsArg(env: Fmt3.Env, a: Fmt3.Arg, st: Fmt3.State)
    requires Fmt3.ArgOut(env, a, st).Ok?
    ensures st.asked <= Fmt3.ArgOut(env, a, st).value.st.asked
    decreases a
  {
    if a.Braced? {
      AskedGrowsParagraph(env, a.p, st);
    }
  }

  lemma {:induction false} AskedGrowsParagraph(env: Fmt3.Env, p: Fmt3.Paragraph, st: Fmt3.State)
    requires Fmt3.ParagraphOut(env, p, st).Ok?
    ensures st.asked <= Fmt3.ParagraphOut(env, p, st).value.st.asked
    decreases p
  {
    match p
    case Start(t) => AskedGrowsThing(env, t, st);
    case Append(q, t) =>
      AskedGrowsParagraph(env, q, st);
      AskedGrowsThing(env, t, Fmt3.ParagraphOut(env, q, st).value.st);
  }

  lemma {:induction false} AskedGrowsParagraphs(env: Fmt3.Env, ps: Fmt3.Paragraphs, st: Fmt3.State)
    requires Fmt3.ParagraphsOut(env, ps, st).Ok?
    ensures st.asked <= Fmt3.ParagraphsOut(env, ps, st).value.st.asked
  {
    match ps
    case Single(p) => AskedGrowsParagraph(env, p, st);
    case Next(qs, p) =>
      AskedGrowsParagraphs(env, qs, st);
      AskedGrowsParagraph(env, p, Fmt3.ParagraphsOut(env, qs, st).value.st);
  }

  lemma SubsetAnswers(a: Files, b: Files, some: seq<string>, all: seq<string>)
    requires some <= all && SameAnswers(a, b, all)
    ensures SameAnswers(a, b, some)
  {
    forall p | p in some
      ensures ReadFile(a, p) == ReadFile(b, p)
    {
      assert p in all;
    }
  }

  /** A listing shows the same, whether the file is found or not. */
  predicate SameListing(env: Fmt3.Env, b: Files, fname: string)
  {
    Fmt3.ListingText(env.(files := b), fname) == Fmt3.ListingText(env, fname)
  }

  predicate Asked(env: Fmt3.Env, fname: string, asked: seq<string>)
  {
    Fmt3.ListingPath(env, fname) in asked
  }

  /** All the listings asked for show the same. */
  ghost predicate SameListings(env: Fmt3.Env, b: Files, asked: seq<string>)
  {
    forall fname {:trigger Asked(env, fname, asked)} :: Asked(env, fname, asked) ==> SameListing(env, b, fname)
  }

  lemma SubsetListings(env: Fmt3.Env, b: Files, some: seq<string>, all: seq<string>)
    requires some <= all && SameListings(env, b, all)
    ensures SameListings(env, b, some)
  {
    forall fname | Asked(env, fname, some)
      ensures SameListing(env, b, fname)
    {
      assert Asked(env, fname, all);
    }
  }

  lemma SameProcess(a: Fmt3.Env, b: Files, name: string, hasArg: bool, txt: seq<Tok>,
                    hasOpt: bool, opt: seq<Tok>, st: Fmt3.State)
    requires Fmt3.Process(a, name, hasArg, txt, hasOpt, opt, st).Ok?
    requires SameListings(a, b, Fmt3.Process(a, name, hasArg, txt, hasOpt, opt, st).value.st.asked)
    ensures Fmt3.Process(a.(files := b), name, hasArg, txt, hasOpt, opt, st)
         == Fmt3.Process(a, name, hasArg, txt, hasOpt, opt, st)
  {
    var c := Fmt3.FindCmd(name);
    if c == Some(Fmt3.CListing) {
      assert Asked(a, Serialize(txt), Fmt3.Process(a, name, hasArg, txt, hasOpt, opt, st).value.st.asked);
      assert SameListing(a, b, Serialize(txt));
    }
  }

  lemma {:induction false} SameThing(a: Fmt3.Env, b: Files, t: Fmt3.Thing, st: Fmt3.State)
    requires Fmt3.ThingOut(a, t, st).Ok?
    requires SameListings(a, b, Fmt3.ThingOut(a, t, st).value.st.asked)
    ensures Fmt3.ThingOut(a.(files := b), t, st) == Fmt3.ThingOut(a, t, st)
    decreases t
  {
    if t.Command? {
      var all := Fmt3.ThingOut(a, t, st).value.st.asked;
      var opt := Fmt3.ArgOut(a, t.opt, st).value;
      var arg := Fmt3.ArgOut(a, t.arg, opt.st).value;
      AskedGrowsArg(a, t.arg, opt.st);
      SubsetListings(a, b, arg.st.asked, all);
      SubsetListings(a, b, opt.st.asked, all);
      SameArg(a, b, t.opt, st);
      SameArg(a, b, t.arg, opt.st);
      SameProcess(a, b, t.name, Fmt3.Given(t.arg), arg.toks, Fmt3.Given(t.opt), opt.toks, arg.st);
    }
  }

  lemma {:induction false} SameArg(a: Fmt3.Env, b: Files, arg: Fmt3.Arg, st: Fmt3.State)
    requires Fmt3.ArgOut(a, arg, st).Ok?
    requires SameListings(a, b, Fmt3.ArgOut(a, arg, st).value.st.asked)
    ensures Fmt3.ArgOut(a.(files := b), arg, st) == Fmt3.ArgOut(a, arg, st)
    decreases arg
  {
    if arg.Braced? {
      SameParagraph(a, b, arg.p, st);
    }
  }

  lemma {:induction false} SameParagraph(a: Fmt3.Env, b: Files, p: Fmt3.Paragraph, st: Fmt3.State)
    requires Fmt3.ParagraphOut(a, p, st).Ok?
    requires SameListings(a, b, Fmt3.ParagraphOut(a, p, st).value.st.asked)
    ensures Fmt3.ParagraphOut(a.(files := b), p, st) == Fmt3.ParagraphOut(a, p, st)
    decreases p
  {
    match p
    case Start(t) => SameThing(a, b, t, st);
    case Append(q, t) =>
      var mid := Fmt3.ParagraphOut(a, q, st).value.st;
      AskedGrowsThing(a, t, mid);
      SubsetListings(a, b, mid.asked, Fmt3.ThingOut(a, t, mid).value.st.asked);
      SameParagraph(a, b, q, st);
      SameThing(a, b, t, mid);
  }

  lemma {:induction false} SameParagraphs(a: Fmt3.Env, b: Files, ps: Fmt3.Paragraphs, st: Fmt3.State)
    requires Fmt3.ParagraphsOut(a, ps, st).Ok?
    requires SameListings(a, b, Fmt3.ParagraphsOut(a, ps, st).value.st.asked)
    ensures Fmt3.ParagraphsOut(a.(files := b), ps, st) == Fmt3.ParagraphsOut(a, ps, st)
  {
    match ps
    case Single(p) => SameParagraph(a, b, p, st);
    case Next(qs, p) =>
      var mid := Fmt3.ParagraphsOut(a, qs, st).value.st;
      AskedGrowsParagraph(a, p, mid);
      SubsetListings(a, b, mid.asked, Fmt3.ParagraphOut(a, p, mid).value.st.asked);
      SameParagraphs(a, b, qs, st);
      SameParagraph(a, b, p, mid);
  }

  lemma {:induction false} SameComments(site: Site, id: nat, a: Files, b: Files, ids: seq<nat>)
    requires AddComments(site, id, a, ids).Some?
    requires SameAnswers(a, b, AddComments(site, id, a, ids).value.asked)
    ensures AddComments(site, id, b, ids) == AddComments(site, id, a, ids)
  {
    if ids != [] {
      var before := AddComments(site, id, a, DropLast(ids)).value;
      var after := AddComments(site, id, a, ids).value;
      SubsetAnswers(a, b, before.asked, after.asked);
      SameComments(site, id, a, b, DropLast(ids));
      assert after.asked[|before.asked|] == MetaPath(site, id, Last(ids));
      if Parsed(a, MetaPath(site, id, Last(ids)), site.parseComment).value.moderated {
        assert after.asked[|before.asked| + 1] == TextPath(site, id, Last(ids));
      }
    }
  }

  lemma {:induction false} LispAskedFirst(site: Site, id: nat, files: Files, ids: seq<nat>)
    requires AddComments(site, id, files, ids).Some?
    ensures LispPath(site, id) in AddComments(site, id, files, ids).value.asked
  {
    if ids != [] {
      LispAskedFirst(site, id, files, DropLast(ids));
    }
  }

  /** The build asks the same questions and gives the same post as long as the
      files it asked for answer the same. */
  lemma BuildDependsOnAsked(site: Site, id: nat, a: Files, b: Files)
    requires Build(site, id, a).Some?
    requires SameAnswers(a, b, Build(site, id, a).value.asked)
    ensures Build(site, id, b) == Build(site, id, a)
  {
    var all := Build(site, id, a).value.asked;
    var meta := Parsed(a, LispPath(site, id), site.parseMeta).value;
    var comments := AddComments(site, id, a, meta.comments).value;
    var doc := Parsed(a, TexPath(site, id), site.parseTex).value;
    var out := Fmt3.Compile(EnvOf(site, id, a), doc).value;
    LispAskedFirst(site, id, a, meta.comments);
    assert LispPath(site, id) in all && TexPath(site, id) in all;
    SubsetAnswers(a, b, comments.asked, all);
    SameComments(site, id, a, b, meta.comments);
    forall p | p in out.st.asked
      ensures ReadFile(a, p) == ReadFile(b, p)
    {
      assert p in all;
    }
    assert EnvOf(site, id, b) == EnvOf(site, id, a).(files := b);
    if doc.Document? {
      var env := EnvOf(site, id, a);
      forall fname | Asked(env, fname, out.st.asked)
        ensures SameListing(env, b, fname)
      {
        assert Fmt3.ListingPath(env, fname) in out.st.asked;
      }
      SameParagraphs(env, b, doc.ps, Fmt3.INITIAL);
    }
  }
}
