/**
 Which files a post is made of.  The paths of PostBuild are spelled out here by the
 layout of the data directory: everything about post 7 is below posts/7/, and
 nothing about any other post.
 */
module PostFiles {
  import opened Basics
  import opened Html
  import opened Posts
  import opened Tags
  import opened PostBuild
  import Fmt3

  // ----- Directories ------------------------------------------------------------------------

  /** The path is in the directory of this post. */
  predicate InDir(site: Site, id: nat, path: string)
  {
    site.dataDir + "/posts/" + Decimal(id) + "/" <= path
  }

  predicate AllInDir(site: Site, id: nat, paths: seq<string>)
  {
    forall i :: 0 <= i < |paths| ==> InDir(site, id, paths[i])
  }

  /** A number and a slash can be told from what follows them. */
  lemma NumberSplits(m: nat, n: nat, x: string, y: string)
    requires Decimal(m) + "/" + x == Decimal(n) + "/" + y
    ensures m == n && x == y
  {
    DecimalValue(m);
    DecimalValue(n);
    var s, a, b := Decimal(m) + "/" + x, Decimal(m), Decimal(n);
    assert s[|a|] == '/' && s[|b|] == '/';
    assert forall i :: 0 <= i < |a| ==> s[i] == a[i];
    assert forall i :: 0 <= i < |b| ==> s[i] == b[i];
    assert |a| == |b|;
    assert s[..|a|] == a && s[..|b|] == b;
    assert s[|a| + 1..] == x && s[|b| + 1..] == y;
  }

  lemma PrefixSplits(head: string, m: nat, n: nat, x: string, y: string)
    requires head + Decimal(m) + "/" + x == head + Decimal(n) + "/" + y
    ensures m == n && x == y
  {
    var u, v := Decimal(m) + "/" + x, Decimal(n) + "/" + y;
    assert head + Decimal(m) + "/" + x == head + u && head + Decimal(n) + "/" + y == head + v;
    assert (head + u)[|head|..] == u && (head + v)[|head|..] == v;
    NumberSplits(m, n, x, y);
  }

  /** No path is in the directories of two posts. */
  lemma DirsDisjoint(site: Site, m: nat, n: nat, path: string)
    requires InDir(site, m, path) && InDir(site, n, path)
    ensures m == n
  {
    var head := site.dataDir + "/posts/";
    var a, b := head + Decimal(m) + "/", head + Decimal(n) + "/";
    assert path == a + path[|a|..] && path == b + path[|b|..];
    PrefixSplits(head, m, n, path[|a|..], path[|b|..]);
  }

  /** Within a post, no two of its files share a path. */
  lemma PathsDistinct(site: Site, id: nat, m: nat, n: nat)
    ensures MetaPath(site, id, m) == MetaPath(site, id, n) ==> m == n
    ensures TextPath(site, id, m) == TextPath(site, id, n) ==> m == n
    ensures MetaPath(site, id, m) != TextPath(site, id, n)
    ensures LispPath(site, id) != TexPath(site, id)
    ensures LispPath(site, id) !in {MetaPath(site, id, m), TextPath(site, id, m)}
    ensures TexPath(site, id) !in {MetaPath(site, id, m), TextPath(site, id, m)}
  {
    var dir := site.dataDir + "/posts/" + Decimal(id);
    var com := dir + "/comments/";
    MetaParts(dir, m);
    MetaParts(dir, n);
    if MetaPath(site, id, m) == MetaPath(site, id, n) {
      PrefixSplits(com, m, n, "meta.lisp", "meta.lisp");
    }
    if TextPath(site, id, m) == TextPath(site, id, n) {
      PrefixSplits(com, m, n, "text.txt", "text.txt");
    }
    if MetaPath(site, id, m) == TextPath(site, id, n) {
      PrefixSplits(com, m, n, "meta.lisp", "text.txt");
    }
    assert LispPath(site, id)[|dir| + 1] == 'p' && TexPath(site, id)[|dir| + 1] == 'p';
    assert |LispPath(site, id)| == |dir| + 10 && |TexPath(site, id)| == |dir| + 9;
    assert MetaPath(site, id, m)[|dir| + 1] == 'c' && TextPath(site, id, m)[|dir| + 1] == 'c';
  }

  lemma MetaParts(dir: string, n: nat)
    ensures dir + "/comments/" + Decimal(n) + "/meta.lisp" == dir + "/comments/" + Decimal(n) + "/" + "meta.lisp"
    ensures dir + "/comments/" + Decimal(n) + "/text.txt" == dir + "/comments/" + Decimal(n) + "/" + "text.txt"
  {}

  // ----- A build stays in its directory -------------------------------------------------------

  lemma PathsInDir(site: Site, id: nat, commid: nat)
    ensures InDir(site, id, LispPath(site, id)) && InDir(site, id, TexPath(site, id))
    ensures InDir(site, id, MetaPath(site, id, commid)) && InDir(site, id, TextPath(site, id, commid))
  {}

  lemma InDirSnoc(site: Site, id: nat, paths: seq<string>, path: string)
    requires AllInDir(site, id, paths) && InDir(site, id, path)
    ensures AllInDir(site, id, paths + [path])
  {}

  lemma {:induction false} CommentsInDir(site: Site, id: nat, files: Files, ids: seq<nat>)
    requires AddComments(site, id, files, ids).Some?
    ensures AllInDir(site, id, AddComments(site, id, files, ids).value.asked)
  {
    hide InDir, LispPath, TexPath, MetaPath, TextPath, AddComment;
    if ids == [] {
      PathsInDir(site, id, 0);
    } else {
      var commid := Last(ids);
      CommentsInDir(site, id, files, DropLast(ids));
      PathsInDir(site, id, commid);
      CommentInDir(site, id, files, AddComments(site, id, files, DropLast(ids)).value, commid);
    }
  }

  lemma CommentInDir(site: Site, id: nat, files: Files, before: Comments, commid: nat)
    requires AllInDir(site, id, before.asked) && AddComment(site, id, files, before, commid).Some?
    ensures AllInDir(site, id, AddComment(site, id, files, before, commid).value.asked)
  {
    hide InDir, LispPath, TexPath, MetaPath, TextPath;
    PathsInDir(site, id, commid);
    InDirSnoc(site, id, before.asked, MetaPath(site, id, commid));
  }

  /** The directory of the post being compiled. */
  predicate EnvIn(site: Site, id: nat, env: Fmt3.Env)
  {
    env.dataDir == site.dataDir && env.postId == id
  }

  lemma ListingInDir(site: Site, id: nat, env: Fmt3.Env, fname: string)
    requires EnvIn(site, id, env)
    ensures InDir(site, id, Fmt3.ListingPath(env, fname))
  {}

  lemma {:induction false} ThingInDir(site: Site, id: nat, env: Fmt3.Env, t: Fmt3.Thing, st: Fmt3.State)
    requires EnvIn(site, id, env) && AllInDir(site, id, st.asked) && Fmt3.ThingOut(env, t, st).Ok?
    ensures AllInDir(site, id, Fmt3.ThingOut(env, t, st).value.st.asked)
    decreases t, 1
  {
    hide InDir, Fmt3.ListingPath, Fmt3.FindCmd, Fmt3.FindEnviron, Fmt3.CmdToks, Serialize;
    if t.Command? {
      var opt := Fmt3.ArgOut(env, t.opt, st).value;
      var arg := Fmt3.ArgOut(env, t.arg, opt.st).value;
      ArgInDir(site, id, env, t.opt, st);
      ArgInDir(site, id, env, t.arg, opt.st);
      ListingInDir(site, id, env, Serialize(arg.toks));
    }
  }

  lemma {:induction false} ArgInDir(site: Site, id: nat, env: Fmt3.Env, a: Fmt3.Arg, st: Fmt3.State)
    requires EnvIn(site, id, env) && AllInDir(site, id, st.asked) && Fmt3.ArgOut(env, a, st).Ok?
    ensures AllInDir(site, id, Fmt3.ArgOut(env, a, st).value.st.asked)
    decreases a, 3
  {
    if a.Braced? {
      ParagraphInDir(site, id, env, a.p, st);
    }
  }

  lemma {:induction false} ParagraphInDir(site: Site, id: nat, env: Fmt3.Env, p: Fmt3.Paragraph, st: Fmt3.State)
    requires EnvIn(site, id, env) && AllInDir(site, id, st.asked) && Fmt3.ParagraphOut(env, p, st).Ok?
    ensures AllInDir(site, id, Fmt3.ParagraphOut(env, p, st).value.st.asked)
    decreases p, 2
  {
    hide InDir, Fmt3.ThingOut;
    match p
    case Start(t) => ThingInDir(site, id, env, t, st);
    case Append(q, t) =>
      ParagraphInDir(site, id, env, q, st);
      ThingInDir(site, id, env, t, Fmt3.ParagraphOut(env, q, st).value.st);
  }

  lemma {:induction false} ParagraphsInDir(site: Site, id: nat, env: Fmt3.Env, ps: Fmt3.Paragraphs, st: Fmt3.State)
    requires EnvIn(site, id, env) && AllInDir(site, id, st.asked) && Fmt3.ParagraphsOut(env, ps, st).Ok?
    ensures AllInDir(site, id, Fmt3.ParagraphsOut(env, ps, st).value.st.asked)
  {
    hide InDir, Fmt3.ParagraphOut;
    match ps
    case Single(p) => ParagraphInDir(site, id, env, p, st);
    case Next(qs, p) =>
      ParagraphsInDir(site, id, env, qs, st);
      ParagraphInDir(site, id, env, p, Fmt3.ParagraphsOut(env, qs, st).value.st);
  }

  /** A build asks for nothing outside the directory of its post. */
  lemma AskedInDir(site: Site, id: nat, files: Files)
    requires Build(site, id, files).Some?
    ensures AllInDir(site, id, Build(site, id, files).value.asked)
  {
    hide InDir, AddComments, Fmt3.ParagraphsOut, Serialize, AddTags;
    var env := EnvOf(site, id, files);
    var meta := Parsed(files, LispPath(site, id), site.parseMeta).value;
    var comments := AddComments(site, id, files, meta.comments).value;
    var doc := Parsed(files, TexPath(site, id), site.parseTex).value;
    CommentsInDir(site, id, files, meta.comments);
    PathsInDir(site, id, 0);
    if doc.Document? {
      ParagraphsInDir(site, id, env, doc.ps, Fmt3.INITIAL);
    }
  }

  /** The theorem: a post depends on the files below its own directory only, which are
      no other post's. */
  lemma PostsAreIsolated(site: Site, id: nat, a: Files, b: Files)
    requires forall path :: InDir(site, id, path) ==> ReadFile(a, path) == ReadFile(b, path)
    ensures Build(site, id, a) == Build(site, id, b)
  {
    hide Build, InDir;
    if Build(site, id, a).Some? {
      AskedInDir(site, id, a);
      SameIfInDir(site, id, a, b);
    } else if Build(site, id, b).Some? {
      AskedInDir(site, id, b);
      SameIfInDir(site, id, b, a);
    }
  }

  lemma SameIfInDir(site: Site, id: nat, a: Files, b: Files)
    requires Build(site, id, a).Some? && AllInDir(site, id, Build(site, id, a).value.asked)
    requires forall path :: InDir(site, id, path) ==> ReadFile(a, path) == ReadFile(b, path)
    ensures Build(site, id, b) == Build(site, id, a)
  {
    hide Build, InDir, ReadFile;
    BuildDependsOnAsked(site, id, a, b);
  }

  // ----- What is in the files -----------------------------------------------------------------

  /** The file in the directory of the post. */
  function FileOf(site: Site, id: nat, files: Files, name: string): Option<string>
  {
    var path := site.dataDir + "/posts/" + Decimal(id) + "/" + name;
    if path in files then Some(files[path].content) else None
  }

  lemma FilesAre(site: Site, id: nat, files: Files, commid: nat)
    ensures FileOf(site, id, files, "post.lisp") == ReadFile(files, LispPath(site, id))
    ensures FileOf(site, id, files, "post.tex") == ReadFile(files, TexPath(site, id))
    ensures FileOf(site, id, files, "comments/" + Decimal(commid) + "/meta.lisp")
         == ReadFile(files, MetaPath(site, id, commid))
    ensures FileOf(site, id, files, "comments/" + Decimal(commid) + "/text.txt")
         == ReadFile(files, TextPath(site, id, commid))
  {
    var dir := site.dataDir + "/posts/" + Decimal(id);
    var com := "comments/" + Decimal(commid);
    assert dir + "/" + "post.lisp" == dir + "/post.lisp" && dir + "/" + "post.tex" == dir + "/post.tex";
    assert dir + "/" + (com + "/meta.lisp") == dir + "/comments/" + Decimal(commid) + "/meta.lisp";
    assert dir + "/" + (com + "/text.txt") == dir + "/comments/" + Decimal(commid) + "/text.txt";
  }

  /** The parsed file; None if it is missing or malformed. */
  function Read<T>(file: Option<string>, parse: string -> Option<T>): Option<T>
  {
    if file.Some? then parse(file.value) else None
  }

  /** A comment that is shown: moderated, with the author, or [unknown], and the text, or
      an error text, from the files of this comment. */
  ghost predicate Shows(site: Site, id: nat, files: Files, c: Comment)
  {
    var dir := "comments/" + Decimal(c.id);
    var meta, text := Read(FileOf(site, id, files, dir + "/meta.lisp"), site.parseComment),
                      FileOf(site, id, files, dir + "/text.txt");
    && meta.Some? && meta.value.moderated
    && c.author == (if meta.value.author.Some? then meta.value.author.value else "[unknown]")
    && c.email == meta.value.email && c.ip == meta.value.ip && c.url == meta.value.url
    && c.time == site.parseTime(meta.value.time)
    && c.body == if text.Some? then text.value else "Error: could not load comment text."
  }

  function ModeratedIds(site: Site, id: nat, files: Files, ids: seq<nat>): seq<nat>
  {
    if ids == [] then []
    else
      var meta := Read(FileOf(site, id, files, "comments/" + Decimal(Last(ids)) + "/meta.lisp"), site.parseComment);
      ModeratedIds(site, id, files, DropLast(ids))
      + if meta.Some? && meta.value.moderated then [Last(ids)] else []
  }

  function Ids(list: seq<Comment>): seq<nat>
  {
    seq(|list|, i requires 0 <= i < |list| => list[i].id)
  }

  /** The comments of a post are the moderated ones of its list, in order. */
  lemma {:induction false} CommentsShown(site: Site, id: nat, files: Files, ids: seq<nat>)
    requires AddComments(site, id, files, ids).Some?
    ensures var list := AddComments(site, id, files, ids).value.list;
            && Ids(list) == ModeratedIds(site, id, files, ids)
            && forall c :: c in list ==> Shows(site, id, files, c)
  {
    if ids != [] {
      CommentsShown(site, id, files, DropLast(ids));
      FilesAre(site, id, files, Last(ids));
      var before := AddComments(site, id, files, DropLast(ids)).value;
      var meta := Parsed(files, MetaPath(site, id, Last(ids)), site.parseComment).value;
      hide FileOf, MetaPath, TextPath;
      if meta.moderated {
        var c := CommentOf(site, files, id, Last(ids), meta);
        assert AddComments(site, id, files, ids).value.list == before.list + [c];
        assert Ids(before.list + [c]) == Ids(before.list) + [c.id];
        assert Shows(site, id, files, c);
      }
    }
  }

  /** The second theorem: what the parts of a built post are. */
  lemma PostConsistsOf(site: Site, id: nat, files: Files)
    requires Build(site, id, files).Some?
    ensures var data := Build(site, id, files).value.data;
            var meta := Read(FileOf(site, id, files, "post.lisp"), site.parseMeta);
            var doc := Read(FileOf(site, id, files, "post.tex"), site.parseTex);
            && meta.Some? && meta.value.fmt == 3 && doc.Some?
            && Fmt3.Compile(EnvOf(site, id, files), doc.value).Ok?
            && var out := Fmt3.Compile(EnvOf(site, id, files), doc.value).value;
            && data.title == (if out.st.title.Some? then out.st.title else meta.value.title)
            && data.time == site.parseTime(if out.st.published.Some? then out.st.published else meta.value.time)
            && data.listed == meta.value.listed && data.fmt == 3
            && data.body == Serialize(out.toks)
            && Build(site, id, files).value.twitterImg == out.st.twitterImg
            && Ids(data.comments) == ModeratedIds(site, id, files, meta.value.comments)
            && data.numcom == |data.comments|
            && (forall c :: c in data.comments ==> Shows(site, id, files, c))
            && (forall t :: t in meta.value.tags + out.st.tags ==> exists u :: u in data.tags && SameTag(u, t))
            && (forall u :: u in data.tags ==> u in meta.value.tags + out.st.tags)
  {
    FilesAre(site, id, files, 0);
    hide FileOf, LispPath, TexPath, Fmt3.Compile, Serialize, AddComments, Shows, AddTags;
    var meta := Parsed(files, LispPath(site, id), site.parseMeta).value;
    var doc := Parsed(files, TexPath(site, id), site.parseTex).value;
    var out := Fmt3.Compile(EnvOf(site, id, files), doc).value;
    CommentsShown(site, id, files, meta.comments);
    TagsJoined(meta.tags, out.st.tags);
  }

  lemma {:induction false} CommentsLoad(site: Site, id: nat, files: Files, ids: seq<nat>)
    ensures AddComments(site, id, files, ids).Some? <==>
            forall i :: 0 <= i < |ids| ==>
              Read(FileOf(site, id, files, "comments/" + Decimal(ids[i]) + "/meta.lisp"), site.parseComment).Some?
  {
    if ids != [] {
      CommentsLoad(site, id, files, DropLast(ids));
      FilesAre(site, id, files, Last(ids));
      hide FileOf, MetaPath, TextPath;
      assert Last(ids) == ids[|ids| - 1];
      assert forall i :: 0 <= i < |ids| - 1 ==> ids[i] == DropLast(ids)[i];
    }
  }

  /** When a post can be built at all. */
  lemma PostBuilds(site: Site, id: nat, files: Files)
    ensures var meta := Read(FileOf(site, id, files, "post.lisp"), site.parseMeta);
            var doc := Read(FileOf(site, id, files, "post.tex"), site.parseTex);
            Build(site, id, files).Some? <==>
              && meta.Some? && meta.value.fmt == 3
              && (forall i :: 0 <= i < |meta.value.comments| ==>
                    Read(FileOf(site, id, files, "comments/" + Decimal(meta.value.comments[i]) + "/meta.lisp"),
                         site.parseComment).Some?)
              && doc.Some? && Fmt3.Compile(EnvOf(site, id, files), doc.value).Ok?
  {
    hide FileOf, LispPath, TexPath, MetaPath, Fmt3.Compile, Assemble, AddComments;
    FilesAre(site, id, files, 0);
    var meta := Parsed(files, LispPath(site, id), site.parseMeta);
    if meta.Some? {
      CommentsLoad(site, id, files, meta.value.comments);
    }
  }

  /** What a preview shows. */
  lemma PreviewConsistsOf(site: Site, id: nat, files: Files, now: nat, before: Data)
    requires BuildPreview(site, id, files, now, before).Some?
    ensures var data := BuildPreview(site, id, files, now, before).value.data;
            var doc := Read(FileOf(site, id, files, "post.tex"), site.parseTex);
            && doc.Some? && Fmt3.Compile(EnvOf(site, id, files), doc.value).Ok?
            && var out := Fmt3.Compile(EnvOf(site, id, files), doc.value).value;
            && data.title == (if out.st.title.Some? then out.st.title else Some("PREVIEW"))
            && data.time == (if out.st.published.Some? then site.parseTime(out.st.published) else now)
            && data.fmt == 3 && data.body == Serialize(out.toks)
            && (data.listed, data.comments, data.numcom) == (before.listed, before.comments, before.numcom)
  {
    hide FileOf, LispPath, TexPath, Fmt3.Compile, Serialize, AddTags;
    FilesAre(site, id, files, 0);
  }

  lemma TagsJoined(a: seq<string>, b: seq<string>)
    ensures forall t :: t in a + b ==> exists u :: u in AddTags(AddTags([], a), b) && SameTag(u, t)
    ensures forall u :: u in AddTags(AddTags([], a), b) ==> u in a + b
  {
    AddTagsUnion([], a, "");
    AddTagsUnion(AddTags([], a), b, "");
    TagsOfPost([], a);
    TagsOfPost(AddTags([], a), b);
    FoldsMean();
    forall t | t in a + b
      ensures exists u :: u in AddTags(AddTags([], a), b) && SameTag(u, t)
    {
      if t in a {
        assert t in [] + a;
        var v :| v in AddTags([], a) && SameTag(v, t);
        assert v in AddTags([], a) + b;
        var u :| u in AddTags(AddTags([], a), b) && SameTag(u, v);
      } else {
        assert t in AddTags([], a) + b;
      }
    }
  }
}
