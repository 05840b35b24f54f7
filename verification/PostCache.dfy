/**
 Refreshing a cached post (post.c).  A post is rebuilt only if one of the files
 recorded by its last build has a newer revision.  The main result is that a
 refreshed post equals one built from scratch, even when nothing was rebuilt.
 */
module PostCache {
  import opened Basics
  import opened Html
  import opened Posts
  import opened Tags
  import opened PostBuild
  import Fmt3
  import Fmt3Parser

  /** file_cache_has_newer */
  predicate HasNewer(files: Files, path: string, rev: nat)
  {
    path in files && files[path].rev > rev
  }

  /** The meaning of must_refresh for a post that is not a preview. */
  predicate Stale(recorded: map<string, nat>, files: Files)
  {
    recorded == map[] || exists p :: p in recorded && HasNewer(files, p, recorded[p])
  }

  /** How the file cache may change: files are added and changed but not removed,
      revisions grow, and a changed content gets a new revision. */
  ghost predicate Later(was: Files, now: Files)
  {
    forall p :: p in was ==>
      && p in now
      && was[p].rev <= now[p].rev
      && (was[p].rev == now[p].rev ==> was[p] == now[p])
  }

  lemma LaterTransitive(a: Files, b: Files, c: Files)
    requires Later(a, b) && Later(b, c)
    ensures Later(a, c)
  {}

  /** No path that was asked for in vain has come into existence. */
  predicate StillMissing(was: Files, now: Files, asked: seq<string>)
  {
    forall p :: p in asked && p !in was ==> p !in now
  }

  /** The post is what a build from scratch gives for `files`, and knows the files
      it came from. */
  ghost predicate Coherent(site: Site, post: Post, files: Files)
    reads post`title, post`time, post`fmt, post`listed, post`tags, post`comments, post`numcom, post`body,
          post`asked, post`files, post`twitterImg
  {
    var built := Build(site, post.id, files);
    built.Some? && Holds(post, built.value, files)
  }

  /** The Twitter image is only ever set, never cleared. */
  ghost predicate Holds(post: Post, built: Built, files: Files)
    reads post`title, post`time, post`fmt, post`listed, post`tags, post`comments, post`numcom, post`body,
          post`asked, post`files, post`twitterImg
  {
    && DataOf(post) == built.data
    && post.asked == built.asked
    && post.files == Record(files, post.asked)
    && (built.twitterImg.Some? ==> post.twitterImg == built.twitterImg)
  }

  /** If no recorded file is newer, all the files asked for answer as before. */
  lemma UnchangedAnswers(was: Files, now: Files, asked: seq<string>)
    requires Later(was, now) && StillMissing(was, now, asked)
    requires !Stale(Record(was, asked), now)
    ensures SameAnswers(was, now, asked)
  {
    RecordedPaths(was, asked);
    forall p | p in asked
      ensures ReadFile(was, p) == ReadFile(now, p)
    {
      if p in was {
        assert p in Record(was, asked);
        assert !HasNewer(now, p, was[p].rev);
      }
    }
  }

  /** The heart of the cache: a post that must_refresh leaves alone is coherent
      with the current files too. */
  lemma NotStaleIsCoherent(site: Site, post: Post, base: Files, now: Files)
    requires Coherent(site, post, base)
    requires Later(base, now) && StillMissing(base, now, post.asked)
    requires !Stale(post.files, now)
    ensures Coherent(site, post, now)
  {
    UnchangedAnswers(base, now, post.asked);
    BuildDependsOnAsked(site, post.id, base, now);
    SameRecord(base, now, post.asked);
  }

  lemma {:induction false} SameRecord(was: Files, now: Files, asked: seq<string>)
    requires Later(was, now) && StillMissing(was, now, asked)
    requires !Stale(Record(was, asked), now) || asked == []
    ensures Record(was, asked) == Record(now, asked)
  {
    RecordedPaths(was, asked);
    RecordedPaths(now, asked);
    forall p | p in Record(was, asked)
      ensures was[p].rev == now[p].rev
    {
      assert !HasNewer(now, p, Record(was, asked)[p]);
    }
  }

  // ----- The operations ---------------------------------------------------------------------

  method RemoveAllFilenames(post: Post)
    modifies post`files, post`asked
    ensures post.files == map[] && post.asked == []
  {
    while post.files != map[]
      decreases |post.files|
    {
      var name :| name in post.files;
      assert post.files.Keys == (post.files - {name}).Keys + {name};
      post.files := post.files - {name};
    }
    post.asked := [];
  }

  method MustRefresh(post: Post, cache: FileCache) returns (r: bool)
    ensures r == (post.preview || Stale(post.files, cache.files))
  {
    if post.preview || post.files == map[] {
      return true;
    }
    var left := post.files.Keys;
    while left != {}
      invariant left <= post.files.Keys
      invariant forall p :: p in post.files && p !in left ==> !HasNewer(cache.files, p, post.files[p])
    {
      var name :| name in left;
      if HasNewer(cache.files, name, post.files[name]) {
        return true;
      }
      left := left - {name};
    }
    return false;
  }

  method LoadComment(site: Site, post: Post, cache: FileCache, commid: nat) returns (text: string)
    requires post.files == Record(cache.files, post.asked)
    modifies post`files, post`asked
    ensures post.files == Record(cache.files, post.asked)
    ensures post.asked == old(post.asked) + [TextPath(site, post.id, commid)]
    ensures var file := ReadFile(cache.files, TextPath(site, post.id, commid));
            text == if file.Some? then file.value else NO_TEXT
  {
    var out := post.GetCachedFile(cache, TextPath(site, post.id, commid));
    text := if out.Some? then out.value else NO_TEXT;
  }

  method PostAddComment(site: Site, post: Post, cache: FileCache, commid: nat) returns (ok: bool)
    requires post.files == Record(cache.files, post.asked) && post.numcom == |post.comments|
    modifies post`files, post`asked, post`comments, post`numcom
    ensures post.files == Record(cache.files, post.asked) && post.numcom == |post.comments|
    ensures var added := AddComment(site, post.id, cache.files, old(Comments(post.comments, post.asked)), commid);
            if ok then added == Some(Comments(post.comments, post.asked)) else added == None
  {
    var meta := post.GetCachedFile(cache, MetaPath(site, post.id, commid));
    if meta.None? {
      return false;
    }
    var lv := site.parseComment(meta.value);
    if lv.None? {
      return false;
    }
    if !lv.value.moderated {
      return true;
    }
    var author := if lv.value.author.Some? then lv.value.author.value else "[unknown]";
    var body := LoadComment(site, post, cache, commid);
    post.comments := post.comments +
      [Comment(commid, author, lv.value.email, site.parseTime(lv.value.time), lv.value.ip, lv.value.url, body)];
    post.numcom := post.numcom + 1;
    return true;
  }

  method PostAddComments(site: Site, post: Post, cache: FileCache, ids: seq<nat>) returns (ok: bool)
    requires post.files == Record(cache.files, post.asked)
    requires post.comments == [] && post.numcom == 0 && post.asked == [LispPath(site, post.id)]
    modifies post`files, post`asked, post`comments, post`numcom
    ensures post.files == Record(cache.files, post.asked) && post.numcom == |post.comments|
    ensures var added := AddComments(site, post.id, cache.files, ids);
            if ok then added == Some(Comments(post.comments, post.asked)) else added == None
  {
    for i := 0 to |ids|
      invariant post.files == Record(cache.files, post.asked) && post.numcom == |post.comments|
      invariant AddComments(site, post.id, cache.files, ids[..i]) == Some(Comments(post.comments, post.asked))
    {
      assert DropLast(ids[..i + 1]) == ids[..i];
      ok := PostAddComment(site, post, cache, ids[i]);
      if !ok {
        CommentFailureStays(site, post.id, cache.files, ids, i + 1);
        return false;
      }
    }
    assert ids[..|ids|] == ids;
    return true;
  }

  lemma {:induction false} CommentFailureStays(site: Site, id: nat, files: Files, ids: seq<nat>, n: nat)
    requires n <= |ids| && AddComments(site, id, files, ids[..n]) == None
    ensures AddComments(site, id, files, ids) == None
  {
    if n < |ids| {
      assert DropLast(ids)[..n] == ids[..n];
      CommentFailureStays(site, id, files, DropLast(ids), n);
    } else {
      assert ids[..n] == ids;
    }
  }

  /** The part of the post that comes from post.lisp and the comments. */
  ghost predicate Filled(site: Site, post: Post, cache: FileCache, meta: Meta)
    reads post, cache
  {
    && Parsed(cache.files, LispPath(site, post.id), site.parseMeta) == Some(meta)
    && AddComments(site, post.id, cache.files, meta.comments) == Some(Comments(post.comments, post.asked))
    && post.files == Record(cache.files, post.asked)
    && DataOf(post) == Published(site, meta, Comments(post.comments, post.asked), post.body)
  }

  method RefreshPublishedProp(site: Site, post: Post, meta: Meta)
    modifies post`time, post`title, post`fmt, post`listed
    ensures post.time == site.parseTime(meta.time) && post.title == meta.title
    ensures post.fmt == meta.fmt && post.listed == meta.listed
  {
    post.time := site.parseTime(meta.time);
    post.title := meta.title;
    post.fmt := meta.fmt;
    post.listed := meta.listed;
  }

  /** The lists are emptied and filled again. */
  method RefreshLists(site: Site, post: Post, cache: FileCache, meta: Meta) returns (ok: bool)
    requires post.files == Record(cache.files, post.asked) && post.asked == [LispPath(site, post.id)]
    modifies post`files, post`asked, post`tags, post`comments, post`numcom
    ensures post.files == Record(cache.files, post.asked) && post.numcom == |post.comments|
    ensures post.tags == AddTags([], meta.tags)
    ensures var added := AddComments(site, post.id, cache.files, meta.comments);
            if ok then added == Some(Comments(post.comments, post.asked)) else added == None
  {
    post.tags := [];
    post.comments, post.numcom := [], 0;
    post.tags := PostAddTags(post.tags, meta.tags);
    ok := PostAddComments(site, post, cache, meta.comments);
  }

  method RefreshPublished(site: Site, post: Post, cache: FileCache) returns (ok: bool, ghost meta: Meta)
    requires post.files == map[] && post.asked == []
    modifies post`files, post`asked, post`time, post`title, post`fmt, post`listed, post`tags, post`comments,
             post`numcom
    ensures ok ==> Filled(site, post, cache, meta)
    ensures !ok ==> Build(site, post.id, cache.files).None?
  {
    meta := Meta(None, None, 0, false, [], []);
    var raw := post.GetCachedFile(cache, LispPath(site, post.id));
    if raw.None? {
      return false, meta;
    }
    var lv := site.parseMeta(raw.value);
    if lv.None? {
      return false, meta;
    }
    meta := lv.value;
    RefreshPublishedProp(site, post, lv.value);
    ok := RefreshLists(site, post, cache, lv.value);
  }

  /** The special commands of post.tex: the title, the time and the image replace
      what was there, the tags are joined. */
  method Override(site: Site, post: Post, x: Fmt3Parser.ParserOutput)
    requires TagTree(post.tags)
    modifies post`time, post`title, post`tags, post`twitterImg
    ensures post.title == if x.title.Some? then x.title else old(post.title)
    ensures post.time == if x.published.Some? then site.parseTime(x.published) else old(post.time)
    ensures post.twitterImg == if x.twitterImg.Some? then x.twitterImg else old(post.twitterImg)
    ensures post.tags == AddTags(old(post.tags), x.tags)
  {
    if x.title.Some? {
      post.title := x.title;
    }
    if x.published.Some? {
      post.time := site.parseTime(x.published);
    }
    if x.twitterImg.Some? {
      post.twitterImg := x.twitterImg;
    }
    post.tags := PostAddTags(post.tags, x.tags);
  }

  /** __do_load_post_body_fmt3: what post.tex adds to the metadata. */
  method LoadFmt3(site: Site, post: Post, cache: FileCache, doc: Fmt3.Document) returns (ok: bool)
    requires post.files == Record(cache.files, post.asked) && TagTree(post.tags)
    modifies post`files, post`asked, post`time, post`title, post`tags, post`body, post`twitterImg
    ensures var spec := Fmt3.Compile(EnvOf(site, post.id, cache.files), doc);
            && (ok <==> spec.Ok?)
            && (ok ==>
                  && DataOf(post) == WithTex(site, old(DataOf(post)), spec.value)
                  && post.asked == old(post.asked) + spec.value.st.asked
                  && post.files == Record(cache.files, post.asked)
                  && post.twitterImg == ImageAfter(spec.value.st.twitterImg, old(post.twitterImg)))
  {
    hide Fmt3.Compile, AddTags, Serialize, Record;
    var env := EnvOf(site, post.id, cache.files);
    var x := new Fmt3Parser.ParserOutput(post, cache);
    var out := x.Parse(env, doc);
    if out.Panic? {
      return false;
    }
    assert post.asked == x.before + x.St().asked;
    Override(site, post, x);
    post.body := Serialize(out.value);
    return true;
  }

  /** The Twitter image is only ever set, never cleared. */
  function ImageAfter(image: Option<string>, before: Option<string>): Option<string>
  {
    if image.Some? then image else before
  }

  method LoadPostBody(site: Site, post: Post, cache: FileCache) returns (ok: bool)
    requires post.files == Record(cache.files, post.asked) && TagTree(post.tags)
    modifies post`files, post`asked, post`time, post`title, post`tags, post`body, post`twitterImg
    ensures var out := TexOut(site, post.id, cache.files);
            && (ok <==> post.fmt == 3 && out.Some?)
            && (ok ==>
                  && DataOf(post) == WithTex(site, old(DataOf(post)), out.value)
                  && post.asked == old(post.asked) + [TexPath(site, post.id)] + out.value.st.asked
                  && post.files == Record(cache.files, post.asked)
                  && post.twitterImg == ImageAfter(out.value.st.twitterImg, old(post.twitterImg)))
  {
    hide Fmt3.Compile, AddTags, Serialize, Record;
    if post.fmt != 3 {
      return false;
    }
    var raw := post.GetCachedFile(cache, TexPath(site, post.id));
    if raw.None? {
      return false;
    }
    var doc := site.parseTex(raw.value);
    if doc.None? {
      return false;
    }
    ok := LoadFmt3(site, post, cache, doc.value);
  }

  /** The post was never built, or it was coherent with files that have only
      changed in ways the recorded revisions show, or the revisions already show
      that it must be built again. */
  ghost predicate Trusted(site: Site, post: Post, base: Files, now: Files)
    reads post`title, post`time, post`fmt, post`listed, post`tags, post`comments, post`numcom, post`body,
          post`asked, post`files, post`twitterImg
  {
    post.files == map[]
    || (Coherent(site, post, base) && Later(base, now)
        && (StillMissing(base, now, post.asked) || Stale(post.files, now)))
  }

  /** How the refresh of a preview ends, given what the post was before. */
  ghost predicate Previewed(site: Site, post: Post, files: Files, now: nat, before: Data,
                            image: Option<string>, ok: bool)
    reads post
  {
    var built := BuildPreview(site, post.id, files, now, before);
    && (ok <==> built.Some?)
    && (ok ==>
          && Holds(post, built.value, files) && TagTree(post.tags)
          && post.twitterImg == ImageAfter(built.value.twitterImg, image))
  }

  /** post_refresh at the time `now`; `base` are the files at the time of the last
      build of a post that is not a preview. */
  method PostRefresh(site: Site, post: Post, cache: FileCache, now: nat, ghost base: Files) returns (ok: bool)
    requires post.preview ==> TagTree(post.tags)
    modifies post`files, post`asked, post`time, post`title, post`fmt, post`listed, post`tags, post`comments,
             post`numcom, post`body, post`twitterImg
    ensures !post.preview && old(Trusted(site, post, base, cache.files)) ==>
              && (ok <==> Build(site, post.id, cache.files).Some?)
              && (ok ==> Coherent(site, post, cache.files))
    ensures var built := Build(site, post.id, cache.files);
            !post.preview && ok && built.Some? && built.value.twitterImg.None? ==>
              post.twitterImg == old(post.twitterImg)
    ensures post.preview ==> Previewed(site, post, cache.files, now, old(DataOf(post)), old(post.twitterImg), ok)
  {
    hide Build, Previewed;
    var must := MustRefresh(post, cache);
    if !must {
      if Trusted(site, post, base, cache.files) {
        NotStaleIsCoherent(site, post, base, cache.files);
      }
      return true;
    }
    if post.preview {
      ok := RefreshPreview(site, post, cache, now);
    } else {
      ok := Reload(site, post, cache);
    }
  }

  /** The branch of post_refresh for previews. */
  method RefreshPreview(site: Site, post: Post, cache: FileCache, now: nat) returns (ok: bool)
    requires TagTree(post.tags)
    modifies post`files, post`asked, post`time, post`title, post`fmt, post`tags, post`body, post`twitterImg
    ensures Previewed(site, post, cache.files, now, old(DataOf(post)), old(post.twitterImg), ok)
  {
    hide TexOut, AddTags, Serialize, TagTree;
    RemoveAllFilenames(post);
    post.title := Some("PREVIEW");
    post.time := now;
    post.fmt := 3;
    ok := LoadPostBody(site, post, cache);
    if ok {
      AddTagsUnion(old(post.tags), TexOut(site, post.id, cache.files).value.st.tags, "");
    }
  }

  /** The branch for other posts. */
  method Reload(site: Site, post: Post, cache: FileCache) returns (ok: bool)
    modifies post`files, post`asked, post`time, post`title, post`fmt, post`listed, post`tags, post`comments,
             post`numcom, post`body, post`twitterImg
    ensures var built := Build(site, post.id, cache.files);
            && (ok <==> built.Some?)
            && (ok ==>
                  && Holds(post, built.value, cache.files)
                  && post.twitterImg == ImageAfter(built.value.twitterImg, old(post.twitterImg)))
  {
    hide TexOut, AddTags, Serialize;
    RemoveAllFilenames(post);
    post.title := None;
    ghost var meta;
    ok, meta := RefreshPublished(site, post, cache);
    if !ok {
      return false;
    }
    AddTagsUnion([], meta.tags, "");
    ok := LoadPostBody(site, post, cache);
  }

  /** get_post for a preview, which is refreshed by load_post and once more before it
      is shown, and is never indexed. */
  method GetPreview(site: Site, cache: FileCache, id: nat, loaded: nat, now: nat) returns (data: Option<Data>)
    ensures var empty := Data(None, 0, 0, false, [], [], 0, "");
            var built := BuildPreview(site, id, cache.files, now, empty);
            data == if built.Some? then Some(built.value.data) else None
  {
    hide TexOut, WithTex;
    var post := new Post(id, true);
    ghost var empty := DataOf(post);
    var ok := PostRefresh(site, post, cache, loaded, cache.files);
    if !ok {
      return None;
    }
    PreviewTwice(site, id, cache.files, loaded, now, empty);
    ok := PostRefresh(site, post, cache, now, cache.files);
    return Some(DataOf(post));
  }

  /** must_refresh never notices a file that did not exist at the last build. */
  lemma NewFileUnnoticed(site: Site, post: Post, files: Files, path: string, file: File)
    requires Coherent(site, post, files) && path !in files
    ensures Later(files, files[path := file]) && !Stale(post.files, files[path := file])
  {
    RecordedPaths(files, post.asked);
    LispAskedFirst(site, post.id, files, Parsed(files, LispPath(site, post.id), site.parseMeta).value.comments);
    assert LispPath(site, post.id) in post.asked;
    assert LispPath(site, post.id) in post.files;
  }

  // ----- Histories ----------------------------------------------------------------------------

  ghost predicate Monotone(history: seq<Files>)
  {
    forall i :: 0 <= i < |history| - 1 ==> Later(history[i], history[i + 1])
  }

  /** Whatever a successful build asks for exists. */
  ghost predicate Complete(site: Site, id: nat, files: Files)
  {
    var built := Build(site, id, files);
    built.Some? && forall p :: p in built.value.asked ==> p in files
  }

  /** A post built from files of which none was missing can be trusted later. */
  lemma CompleteIsTrusted(site: Site, post: Post, base: Files, now: Files)
    requires Coherent(site, post, base) && Complete(site, post.id, base) && Later(base, now)
    ensures Trusted(site, post, base, now)
  {
    hide Build;
  }

  lemma NewIsTrusted(site: Site, post: Post, base: Files, now: Files)
    requires post.files == map[]
    ensures Trusted(site, post, base, now)
  {
    hide Build, Coherent;
  }

  lemma CompleteBuilds(site: Site, id: nat, files: Files)
    requires Complete(site, id, files)
    ensures Build(site, id, files).Some?
  {
    hide Build;
  }

  /** Any number of file changes with a refresh after some of them: after every
      refresh the post is what a build from scratch gives for the files of that
      moment.  The post may be new or coherent with `start`. */
  method RunHistory(site: Site, post: Post, cache: FileCache, ghost start: Files,
                    history: seq<Files>, refresh: seq<bool>)
    requires !post.preview && |history| == |refresh| > 0
    requires Monotone([start] + history)
    requires forall i :: 0 <= i < |history| && refresh[i] ==> Complete(site, post.id, history[i])
    requires post.files == map[] || (Coherent(site, post, start) && Complete(site, post.id, start))
    modifies post, cache
    ensures cache.files == Last(history)
    ensures Last(refresh) ==> Coherent(site, post, Last(history))
  {
    hide Build, Coherent, Complete, Trusted;
    ghost var base := start;
    ghost var all := [start] + history;
    for i := 0 to |history|
      invariant Later(base, all[i])
      invariant post.files == map[] || (Coherent(site, post, base) && Complete(site, post.id, base))
      invariant i > 0 ==> cache.files == history[i - 1]
      invariant i > 0 && refresh[i - 1] ==> Coherent(site, post, history[i - 1])
    {
      assert Later(all[i], all[i + 1]);
      LaterTransitive(base, all[i], all[i + 1]);
      cache.files := history[i];
      if refresh[i] {
        CompleteBuilds(site, post.id, history[i]);
        if post.files != map[] {
          CompleteIsTrusted(site, post, base, history[i]);
        } else {
          NewIsTrusted(site, post, base, history[i]);
        }
        var ok := PostRefresh(site, post, cache, 0, base);
        base := history[i];
      }
    }
  }
}
