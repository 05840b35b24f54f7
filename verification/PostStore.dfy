/**
 The life of posts in memory: load_post (post.c), index_lookup_post and
 index_insert_post (post_index.c), get_post and load_posts (post_nv.c).  A `Store`
 is the index together with all the references that are held outside of it; every
 method is one step that other threads see as a whole.  load_post is three steps,
 since nothing is locked between its lookup, its refresh and its insertion.
 */
module PostStore {
  import opened Basics
  import opened Posts
  import opened RbTree
  import opened Tags
  import opened PostBuild
  import opened PostCache
  import opened PostIndex
  import opened PostListing
  import opened PostRuns
  import PostTeardown

  lemma {:induction false} TimesAppend(a: seq<Post>, b: seq<Post>, p: Post)
    ensures Times(a + b, p) == Times(a, p) + Times(b, p)
  {
    if b == [] {
      assert a + b == a;
    } else {
      assert DropLast(a + b) == a + DropLast(b);
      TimesAppend(a, DropLast(b), p);
    }
  }

  lemma TimesSnoc(s: seq<Post>, x: Post, p: Post)
    ensures Times(s + [x], p) == Times(s, p) + if x == p then 1 else 0
  {
    assert DropLast(s + [x]) == s;
  }

  lemma TimesRemoved(s: seq<Post>, k: nat, p: Post)
    requires k < |s|
    ensures Times(s, p) == Times(RemoveAt(s, k), p) + if s[k] == p then 1 else 0
  {
    assert s == s[..k] + [s[k]] + s[k + 1..];
    TimesAppend(s[..k] + [s[k]], s[k + 1..], p);
    TimesAppend(s[..k], s[k + 1..], p);
    TimesSnoc(s[..k], s[k], p);
  }

  lemma {:induction false} TimesIn(s: seq<Post>, p: Post)
    ensures p in s <==> Times(s, p) > 0
  {
    if s != [] {
      TimesIn(DropLast(s), p);
      assert s == DropLast(s) + [Last(s)];
    }
  }

  /** The tags of a built post form a tree. */
  lemma BuiltTagTree(site: Site, id: nat, files: Files)
    requires Build(site, id, files).Some?
    ensures TagTree(Build(site, id, files).value.data.tags)
  {
    var meta := Parsed(files, LispPath(site, id), site.parseMeta).value;
    var comments := AddComments(site, id, files, meta.comments).value;
    var doc := Parsed(files, TexPath(site, id), site.parseTex).value;
    var out := Fmt3.Compile(EnvOf(site, id, files), doc).value;
    AddTagsUnion([], meta.tags, "");
    AddTagsUnion(AddTags([], meta.tags), out.st.tags, "");
  }

  lemma PostsInserted(ids: seq<GlobalEntry>, g: GlobalEntry)
    ensures (set x | x in Insert(ids, g, IdOf, IdCmp) :: x.post) == (set x | x in ids :: x.post) + {g.post}
  {
    InsertedElements(ids, g, IdOf, IdCmp);
    assert g in Insert(ids, g, IdOf, IdCmp);
    assert forall x :: x in ids ==> x in Insert(ids, g, IdOf, IdCmp);
  }

  /** What a request showed of a post, and the files of that moment. */
  datatype Shown = Shown(post: Post, data: Data, files: Files)

  /** It is what a build from those files gives. */
  ghost predicate Right(site: Site, e: Shown)
  {
    var built := Build(site, e.post.id, e.files);
    built.Some? && built.value.data == e.data
  }

  /** The entry shows this post, as it is built from these files if `right`. */
  ghost predicate Shows(site: Site, e: Shown, post: Post, files: Files, right: bool)
  {
    e.post == post && e.files == files && (right ==> Right(site, e))
  }

  /** The entries show these posts. */
  ghost predicate ShowAll(site: Site, log: seq<Shown>, got: seq<Post>, files: Files, right: bool)
  {
    |log| == |got| && forall i :: 0 <= i < |log| ==> Shows(site, log[i], got[i], files, right)
  }

  lemma ShowOneMore(site: Site, log: seq<Shown>, got: seq<Post>, e: Shown, post: Post, files: Files, right: bool)
    requires ShowAll(site, log, got, files, right) && Shows(site, e, post, files, right)
    ensures ShowAll(site, log + [e], got + [post], files, right)
  {
    hide Shows;
  }

  lemma ShowsWeaker(site: Site, e: Shown, post: Post, files: Files, right: bool, less: bool)
    requires Shows(site, e, post, files, right) && (less ==> right)
    ensures Shows(site, e, post, files, less)
  {
    hide Right;
  }

  lemma EmptyLog(site: Site, files: Files, right: bool)
    ensures ShowAll(site, [], [], files, right)
  {}

  /** The files that are needed to build a post are among those it records. */
  lemma CoherentIsTrusted(site: Site, post: Post, files: Files)
    requires Coherent(site, post, files)
    ensures Trusted(site, post, files, files) && post.files != map[]
    ensures Build(site, post.id, files).Some? && Right(site, Shown(post, DataOf(post), files))
  {
    var meta := Parsed(files, LispPath(site, post.id), site.parseMeta).value;
    var comments := AddComments(site, post.id, files, meta.comments).value;
    LispAskedFirst(site, post.id, files, meta.comments);
    assert LispPath(site, post.id) in post.asked && LispPath(site, post.id) in files;
    RecordedPaths(files, post.asked);
    assert LispPath(site, post.id) in post.files;
  }

  /** Trust survives changes that keep to the rules. */
  lemma TrustedLater(site: Site, post: Post, base: Files, now: Files, later: Files)
    requires Trusted(site, post, base, now) && Later(now, later)
    requires var built := Build(site, post.id, now);
             post.files != map[] && built.Some? ==> StillMissing(now, later, built.value.asked)
    ensures Trusted(site, post, base, later)
  {
    hide Build;
    if post.files != map[] {
      LaterTransitive(base, now, later);
      if Stale(post.files, now) {
        var path :| path in post.files && HasNewer(now, path, post.files[path]);
        assert HasNewer(later, path, post.files[path]);
      } else {
        NotStaleIsCoherent(site, post, base, now);
      }
    }
  }

  lemma OthersRemain<T>(s: seq<T>, k: nat)
    requires k < |s|
    ensures forall x :: x in s && x != s[k] ==> x in RemoveAt(s, k)
    ensures forall x :: x in RemoveAt(s, k) ==> x in s
  {
    var t := RemoveAt(s, k);
    forall x | x in s && x != s[k]
      ensures x in t
    {
      var i :| 0 <= i < |s| && s[i] == x;
      assert t[if i < k then i else i - 1] == x;
    }
  }

  function IdsOf(ps: set<Post>): set<nat>
  {
    set p | p in ps :: p.id
  }

  lemma OneMoreId(was: set<Post>, now: set<Post>, id: nat)
    requires was <= now && forall p :: p in now && p !in was ==> p.id == id
    ensures IdsOf(now) == IdsOf(was) + if exists p :: p in now && p.id == id then {id} else {}
  {}

  /** The ids of the indexed posts after ShowPost. */
  lemma ShowIds(site: Site, s: Summary, id: nat, was: set<Post>, now: set<Post>, found: bool)
    requires s.ids == IdsOf(was) && was <= now && forall p :: p in now && p !in was ==> p.id == id
    requires if found then exists p :: p in now && p.id == id else now == was
    requires found <==> id in s.ids || Build(site, id, s.files).Some?
    ensures Next(site, s, ShowPost(id)) == s.(ids := IdsOf(now))
  {
    OneMoreId(was, now, id);
  }

  lemma NoInsert(site: Site, s: Summary, k: nat)
    requires k >= |s.loading| || !s.loading[k].built
    ensures !Collides(s, InsertStarted(k)) && Next(site, s, InsertStarted(k)) == s
  {}

  /** The summary after InsertStarted. */
  lemma InsertIds(site: Site, s: Summary, k: nat, post: Post, was: set<Post>, ok: bool)
    requires s.ids == IdsOf(was) && k < |s.loading| && s.loading[k] == Load(post.id, true)
    requires ok <==> post.id !in s.ids
    ensures Collides(s, InsertStarted(k)) <==> !ok
    ensures Next(site, s, InsertStarted(k))
         == s.(ids := IdsOf(was + if ok then {post} else {}), loading := RemoveAt(s.loading, k))
  {
    OneMoreId(was, was + if ok then {post} else {}, post.id);
    assert ok ==> post in was + {post};
  }

  /** The loads that these posts are. */
  ghost predicate LoadsOf(loads: seq<Load>, ps: seq<Post>)
    reads ps`files
  {
    && |loads| == |ps|
    && forall i :: 0 <= i < |ps| ==> loads[i] == Load(ps[i].id, ps[i].files != map[])
  }

  lemma LoadAt(loads: seq<Load>, ps: seq<Post>, k: nat)
    requires LoadsOf(loads, ps)
    ensures |loads| == |ps| && (k < |ps| ==> loads[k] == Load(ps[k].id, ps[k].files != map[]))
  {}

  lemma LoadRemoved(loads: seq<Load>, ps: seq<Post>, k: nat)
    requires LoadsOf(loads, ps) && k < |ps|
    ensures LoadsOf(RemoveAt(loads, k), RemoveAt(ps, k))
  {}

  datatype LoadResult = Loaded(post: Post) | LoadFailed | LoadAborted

  class Store {
    const site: Site
    const cache: FileCache
    const index: Index
    /** References held by requests. */
    var handles: seq<Post>
    /** Posts between the two halves of load_post, which holds a reference to each. */
    var loading: seq<Post>
    /** The posts in memory, and those that are gone. */
    ghost var posts: set<Post>
    ghost var destroyed: set<Post>
    /** What has been shown, in order. */
    ghost var shown: seq<Shown>

    constructor (site: Site, cache: FileCache)
      ensures this.site == site && this.cache == cache && fresh(index) && index.byId == [] && index.byTag == []
      ensures Valid() && handles == [] && loading == [] && posts == {} && destroyed == {}
      ensures Keeping() && Settled() && Summarises(Summary({}, [], cache.files)) && shown == []
    {
      this.site, this.cache := site, cache;
      index := new Index();
      handles, loading := [], [];
      posts, destroyed, shown := {}, {}, [];
    }

    // ----- The invariant ------------------------------------------------------------------

    /** Reference conservation. */
    ghost predicate Counted(p: Post)
      reads `handles, `loading, index`byId, p`refcnt
    {
      && p.refcnt > 0 && !p.preview
      && p.refcnt == (if p in index.Posts() then 1 else 0) + Times(handles, p) + Times(loading, p)
    }

    ghost predicate New(p: Post)
      reads index`byId, p`tags, p`refcnt
    {
      p !in index.Posts() && p.refcnt == 1 && TagTree(p.tags)
    }

    ghost predicate Conserved()
      reads `handles, `loading, `posts, `destroyed, index`byId, posts
    {
      ConservedBut({})
    }

    /** As long as load_post has not finished inserting the posts in `inserting`. */
    ghost predicate ConservedBut(inserting: set<Post>)
      reads `handles, `loading, `posts, `destroyed, index`byId, posts
    {
      && (forall p {:trigger Counted(p)} :: p in posts ==> Counted(p))
      && index.Posts() - inserting <= posts && posts !! destroyed
      && (forall p :: p in handles ==> p in posts && p !in loading)
      && (forall p {:trigger New(p)} :: p in loading ==> p in posts && New(p))
    }

    ghost predicate Valid()
      reads `handles, `loading, `posts, `destroyed, index, index.byId, index.byTag, posts
    {
      index.Valid() && Conserved()
    }

    // ----- What the posts show ------------------------------------------------------------

    /** The post notices every change since its last build that makes a difference. */
    ghost predicate Noticing(p: Post)
      reads cache, p`title, p`time, p`fmt, p`listed, p`tags, p`comments, p`numcom, p`body,
            p`asked, p`base, p`files, p`twitterImg
    {
      Trusted(site, p, p.base, cache.files)
    }

    /** And a refresh of it will succeed. */
    ghost predicate Current(p: Post)
      reads cache, p`title, p`time, p`fmt, p`listed, p`tags, p`comments, p`numcom, p`body,
            p`asked, p`base, p`files, p`twitterImg
    {
      Noticing(p) && (p.files != map[] ==> Build(site, p.id, cache.files).Some?)
    }

    /** All posts in memory are current, and only those being loaded are not built yet. */
    ghost predicate Keeping()
      reads `posts, `loading, cache, posts`title, posts`time, posts`fmt, posts`listed, posts`tags,
            posts`comments, posts`numcom, posts`body, posts`asked, posts`base, posts`files, posts`twitterImg
    {
      forall p {:trigger Current(p)} :: p in posts ==> Current(p) && (p !in loading ==> p.files != map[])
    }

    // ----- References ---------------------------------------------------------------------

    /** post_getref */
    method GetRef(post: Post)
      requires Valid() && post in posts && post !in loading
      modifies `handles, post`refcnt
      ensures Valid() && handles == old(handles) + [post]
      ensures post.refcnt == old(post.refcnt) + 1
    {
      assert Counted(post);
      post.refcnt := post.refcnt + 1;
      handles := handles + [post];
      forall p | p in posts ensures Counted(p) {
        assert old(Counted(p));
        TimesSnoc(old(handles), post, p);
      }
      forall p | p in loading ensures p in posts && New(p) {
        assert old(New(p));
      }
    }

    /** post_putref: the last reference destroys the post. */
    method PutRef(post: Post, k: nat)
      requires Valid() && k < |handles| && handles[k] == post
      modifies `handles, `posts, `destroyed, post`refcnt
      ensures Valid() && handles == RemoveAt(old(handles), k)
      ensures post.refcnt == old(post.refcnt) - 1
      ensures var gone := if post.refcnt == 0 then {post} else {};
              posts == old(posts) - gone && destroyed == old(destroyed) + gone
    {
      assert Counted(post);
      post.refcnt := post.refcnt - 1;
      handles := RemoveAt(handles, k);
      if post.refcnt == 0 {
        posts, destroyed := posts - {post}, destroyed + {post};
      }
      TimesIn(handles, post);
      TimesRemoved(old(handles), k, post);
      forall p | p in posts ensures Counted(p) {
        assert old(Counted(p));
        TimesRemoved(old(handles), k, p);
      }
      forall p | p in loading ensures p in posts && New(p) {
        assert old(New(p));
      }
    }

    // ----- Loading ------------------------------------------------------------------------

    /** index_lookup_post */
    method IndexLookupPost(id: nat) returns (found: Option<Post>)
      requires Valid()
      modifies `handles, index.Posts()`refcnt
      ensures Valid() && index.HasId(id) == found.Some?
      ensures match found
              case None => handles == old(handles)
              case Some(post) =>
                post.id == id && post in index.Posts() && handles == old(handles) + [post]
    {
      IdCmpOrder();
      FoundAtPosition(index.byId, id, IdOf, IdCmp);
      var global := Lookup(index.byId, id, IdOf, IdCmp);
      if global.Missing? {
        return None;
      }
      var g := global.elem;
      assert g in index.byId && GlobalOk(g, index.byTag);
      assert forall p :: p in loading ==> New(p);
      GetRef(g.post);
      return Some(g.post);
    }

    /** The first half of load_post. */
    method StartLoad(id: nat) returns (found: Option<Post>)
      requires Valid()
      modifies `handles, `loading, `posts, index.Posts()`refcnt
      ensures Valid() && fresh(posts - old(posts)) && old(posts) <= posts
      ensures index.HasId(id) == found.Some?
      ensures match found
              case None => handles == old(handles) && |loading| == |old(loading)| + 1
                           && loading == old(loading) + [Last(loading)]
                           && Last(loading).id == id && Last(loading).files == map[] && fresh(Last(loading))
                           && posts == old(posts) + {Last(loading)}
              case Some(post) =>
                post.id == id && post in index.Posts() && loading == old(loading)
                && handles == old(handles) + [post] && posts == old(posts)
    {
      found := IndexLookupPost(id);
      if found.Some? {
        return;
      }
      var post := new Post(id, false);
      Join(post);
    }

    /** The new post is not yet in the index. */
    method Join(post: Post)
      requires Valid() && post !in posts + destroyed && post !in index.Posts() && post !in handles + loading
      requires !post.preview && TagTree(post.tags) && post.refcnt == 1
      modifies `loading, `posts
      ensures Valid() && posts == old(posts) + {post} && loading == old(loading) + [post]
    {
      loading := loading + [post];
      posts := posts + {post};
      TimesIn(handles, post);
      TimesIn(old(loading), post);
      forall p | p in posts ensures Counted(p) {
        assert p != post ==> old(Counted(p));
        TimesSnoc(old(loading), post, p);
      }
      forall p | p in loading ensures p in posts && New(p) {
        assert p != post ==> old(New(p));
      }
    }

    /** load_post goes on with one of its posts; nobody else has a reference to it. */
    method Resume(post: Post, k: nat)
      requires Valid() && k < |loading| && loading[k] == post
      modifies `loading, `posts
      ensures Valid() && old(posts) == posts + {post} && loading == RemoveAt(old(loading), k)
      ensures post !in index.Posts() && post !in handles + loading && post !in posts + destroyed
      ensures post.refcnt == 1 && !post.preview && TagTree(post.tags)
    {
      assert New(post) && Counted(post);
      TimesIn(loading, post);
      loading := RemoveAt(loading, k);
      posts := posts - {post};
      TimesRemoved(old(loading), k, post);
      TimesIn(loading, post);
      forall p | p in posts ensures Counted(p) {
        assert old(Counted(p));
        TimesRemoved(old(loading), k, p);
      }
      forall p | p in loading ensures p in posts && New(p) {
        assert old(New(p));
      }
    }

    /** load_post returns its post, which is in the index if all went well. */
    method Return(post: Post)
      requires index.Valid() && ConservedBut({post}) && post !in posts + destroyed && post !in handles + loading
      requires post.refcnt == 1 + (if post in index.Posts() then 1 else 0) && !post.preview
      modifies `handles, `posts
      ensures Valid() && posts == old(posts) + {post} && handles == old(handles) + [post]
    {
      handles := handles + [post];
      posts := posts + {post};
      TimesIn(old(handles), post);
      TimesIn(loading, post);
      forall p | p in posts ensures Counted(p) {
        assert p != post ==> old(Counted(p));
        TimesSnoc(old(handles), post, p);
      }
      forall p | p in loading ensures p in posts && New(p) {
        assert old(New(p));
      }
    }

    /** ASSERT0(index_insert_post(post)) */
    method Insert(post: Post) returns (ok: bool)
      requires Valid() && post !in posts + destroyed && post !in handles + loading
      requires post.refcnt == 1 && !post.preview && TagTree(post.tags) && post !in index.Posts()
      modifies index, index.Subs(), post`refcnt
      ensures index.Valid() && ConservedBut({post}) && fresh(index.Subs() - old(index.Subs()))
      ensures ok == !old(index.HasId(post.id))
      ensures index.Posts() == old(index.Posts()) + if ok then {post} else {}
      ensures post.refcnt == if ok then 2 else 1
    {
      ghost var global;
      ok, global := index.InsertPost(post);
      if ok {
        PostsInserted(old(index.byId), global);
      }
      forall p | p in posts ensures Counted(p) {
        assert old(Counted(p));
      }
      forall p | p in loading ensures p in posts && New(p) {
        assert old(New(p));
      }
    }

    /** A first refresh makes a tree of the tags.  The time of day matters to previews
        only. */
    method RefreshTags(post: Post) returns (ok: bool)
      requires post.files == map[] && !post.preview
      modifies post
      ensures ok == Build(site, post.id, cache.files).Some? && post.refcnt == old(post.refcnt)
      ensures ok ==> Coherent(site, post, cache.files) && TagTree(post.tags) && post.files != map[]
    {
      ok := PostRefresh(site, post, cache, 0, cache.files);
      if ok {
        BuiltTagTree(site, post.id, cache.files);
        CoherentIsTrusted(site, post, cache.files);
      }
    }

    /** The refresh in load_post, which fails if the post cannot be built. */
    method RefreshNew(post: Post) returns (ok: bool)
      requires Valid() && post !in posts + destroyed && post !in handles + loading && post !in index.Posts()
      requires post.files == map[] && !post.preview
      modifies `destroyed, post
      ensures Valid() && ok == Build(site, post.id, cache.files).Some?
      ensures destroyed == old(destroyed) + if ok then {} else {post}
      ensures post.refcnt == old(post.refcnt) && post.base == cache.files
      ensures ok ==> Coherent(site, post, cache.files) && TagTree(post.tags) && post.files != map[]
    {
      hide Build, Coherent;
      ok := RefreshTags(post);
      if !ok {
        destroyed := destroyed + {post};
      }
      post.base := cache.files;
      forall p | p in posts ensures Counted(p) {
        assert old(Counted(p));
      }
      forall p | p in loading ensures p in posts && New(p) {
        assert old(New(p));
      }
    }

    /** The last step of load_post. */
    method InsertLoaded(post: Post) returns (result: LoadResult)
      requires Valid() && post !in posts + destroyed && post !in handles + loading
      requires post.refcnt == 1 && !post.preview && TagTree(post.tags) && post !in index.Posts()
      modifies `handles, `posts, index, index.Subs(), post`refcnt
      ensures Valid() && fresh(index.Subs() - old(index.Subs()))
      ensures result == if old(index.HasId(post.id)) then LoadAborted else Loaded(post)
      ensures index.Posts() == old(index.Posts()) + if result.Loaded? then {post} else {}
      ensures handles == old(handles) + [post] && posts == old(posts) + {post}
    {
      var ok := Insert(post);
      Return(post);
      result := if ok then Loaded(post) else LoadAborted;
    }

    /** The middle of load_post. */
    method RefreshLoading(post: Post, k: nat) returns (ok: bool)
      requires Valid() && k < |loading| && loading[k] == post && post.files == map[]
      modifies `loading, `posts, `destroyed, post
      ensures Valid() && ok == Build(site, post.id, cache.files).Some?
      ensures ok ==> Coherent(site, post, cache.files) && post.files != map[]
      ensures post.base == cache.files
      ensures loading == RemoveAt(old(loading), k) + (if ok then [post] else []) && post !in RemoveAt(old(loading), k)
      ensures posts == old(posts) - (if ok then {} else {post})
      ensures destroyed == old(destroyed) + if ok then {} else {post}
    {
      hide Build, Coherent;
      Resume(post, k);
      ok := RefreshNew(post);
      if ok {
        Join(post);
      }
    }

    /** The end of load_post.  Its assertion fails exactly if a post with the same
        id has been inserted since the lookup. */
    method InsertLoading(post: Post, k: nat) returns (result: LoadResult)
      requires Valid() && k < |loading| && loading[k] == post
      modifies `handles, `loading, `posts, index, index.Subs(), post`refcnt
      ensures Valid() && fresh(index.Subs() - old(index.Subs()))
      ensures result == if old(index.HasId(post.id)) then LoadAborted else Loaded(post)
      ensures index.Posts() == old(index.Posts()) + if result.Loaded? then {post} else {}
      ensures loading == RemoveAt(old(loading), k) && handles == old(handles) + [post] && posts == old(posts)
    {
      Resume(post, k);
      result := InsertLoaded(post);
    }

    // ----- Listing ------------------------------------------------------------------------

    /** The array filled by index_get_posts. */
    method Taken(ret: array<Post?>, count: nat, ghost out: seq<Post>) returns (got: seq<Post>)
      requires PostListing.Filled(ret, count, out)
      ensures got == out
    {
      got := [];
      for i := 0 to count
        invariant got == out[..i]
      {
        var post := ret[i];
        if post != null {
          got := got + [post];
        }
      }
    }

    /** index_get_posts fills an array. */
    method Fill(tag: Option<string>, pred: Pred, skip: int, n: nat) returns (got: seq<Post>)
      requires index.Valid()
      modifies index.Posts()`refcnt
      ensures got == old(Selection(index, tag, pred, skip, n))
      ensures forall p :: p in got ==> p in index.Posts()
      ensures forall p :: p in index.Posts() ==> p.refcnt == old(p.refcnt) + Times(got, p)
    {
      hide Select, Times, Wanted;
      var ret := new Post?[n](_ => null);
      var count, out := IndexGetPosts(index, ret, tag, pred, skip, n);
      got := Taken(ret, count, out);
    }

    /** index_get_posts returns a reference for every slot it fills. */
    method List(tag: Option<string>, pred: Pred, skip: int, n: nat) returns (got: seq<Post>)
      requires Valid()
      modifies `handles, index.Posts()`refcnt
      ensures Valid() && handles == old(handles) + got
      ensures got == old(Selection(index, tag, pred, skip, n))
      ensures forall p :: p in got ==> p in index.Posts()
    {
      hide Selection;
      got := Fill(tag, pred, skip, n);
      handles := handles + got;
      forall p | p in posts ensures Counted(p) {
        assert old(Counted(p));
        TimesAppend(old(handles), got, p);
        TimesIn(got, p);
      }
      forall p | p in loading ensures p in posts && New(p) {
        assert old(New(p));
      }
    }

    /** post_refresh on behalf of somebody who holds a reference, and what can be seen
        of the post then. */
    method Refresh(post: Post) returns (ok: bool)
      requires Valid() && post in handles
      modifies `shown, post`base, post`files, post`asked, post`time, post`title, post`fmt, post`listed, post`tags,
               post`comments, post`numcom, post`body, post`twitterImg
      ensures Valid()
      ensures shown == old(shown) + if ok then [Shown(post, DataOf(post), cache.files)] else []
      ensures old(Noticing(post)) ==> ok == Build(site, post.id, cache.files).Some?
      ensures old(Noticing(post)) && ok ==> Right(site, Last(shown)) && Current(post) && post.files != map[]
    {
      hide Build, Trusted, Right, Index.Valid, TagTree, Times;
      assert Counted(post);
      ok := RefreshData(post, post.base);
      if ok {
        post.base := cache.files;
        shown := shown + [Shown(post, DataOf(post), cache.files)];
      }
      forall p | p in posts ensures Counted(p) {
        assert old(Counted(p));
      }
      forall p | p in loading ensures p in posts && New(p) {
        assert old(New(p));
      }
    }

    /** post_refresh */
    method RefreshData(post: Post, ghost base: Files) returns (ok: bool)
      requires !post.preview
      modifies post`files, post`asked, post`time, post`title, post`fmt, post`listed, post`tags, post`comments,
               post`numcom, post`body, post`twitterImg
      ensures old(Trusted(site, post, base, cache.files)) ==> ok == Build(site, post.id, cache.files).Some?
      ensures old(Trusted(site, post, base, cache.files)) && ok ==>
                && Trusted(site, post, cache.files, cache.files) && post.files != map[]
                && Right(site, Shown(post, DataOf(post), cache.files))
    {
      ghost var trusted := Trusted(site, post, base, cache.files);
      ok := PostRefresh(site, post, cache, 0, base);
      if trusted && ok {
        CoherentIsTrusted(site, post, cache.files);
      }
    }

    /** Releasing an indexed post never destroys it. */
    method PutIndexed(post: Post, k: nat)
      requires Valid() && k < |handles| && handles[k] == post && post in index.Posts()
      modifies `handles, `posts, `destroyed, post`refcnt
      ensures Valid() && handles == RemoveAt(old(handles), k)
      ensures posts == old(posts) && destroyed == old(destroyed)
    {
      assert Counted(post);
      TimesIn(handles, post);
      PutRef(post, k);
    }

    /** One turn of load_posts: refresh, show, release. */
    method LoadOne(post: Post, k: nat) returns (ok: bool)
      requires Valid() && k < |handles| && handles[k] == post && post in index.Posts()
      modifies `handles, `posts, `destroyed, `shown, post
      ensures Valid() && posts == old(posts) && destroyed == old(destroyed)
      ensures handles == if ok then RemoveAt(old(handles), k) else old(handles)
      ensures if ok then shown != [] && DropLast(shown) == old(shown) else shown == old(shown)
      ensures ok ==> Shows(site, Last(shown), post, cache.files, old(Noticing(post) || Keeping()))
      ensures old(Keeping()) ==> ok && Keeping()
      ensures forall p :: p in loading ==> p.files == old(p.files)
    {
      hide Build, Trusted, Right;
      ok := Refresh(post);
      assert old(Keeping()) ==> old(Current(post)) && old(post.files) != map[] by {
        assert post in posts;
        assert post !in loading by {
          assert post in handles;
        }
      }
      if ok {
        PutIndexed(post, k);
      }
      forall p | old(Keeping()) && p in posts
        ensures Current(p) && (p !in loading ==> p.files != map[])
      {
        assert old(Current(p));
      }
    }

    /** One more post for the log. */
    method LoadNext(got: seq<Post>, i: nat, n: nat, ghost from: nat, ghost right: bool) returns (ok: bool)
      requires Valid() && i < |got| && n < |handles| && handles[n] == got[i] && got[i] in index.Posts()
      requires from <= |shown| && ShowAll(site, shown[from..], got[..i], cache.files, right)
      requires right ==> Keeping()
      modifies `handles, `posts, `destroyed, `shown, got[i]
      ensures Valid() && posts == old(posts) && destroyed == old(destroyed) && old(shown) <= shown
      ensures ok ==> handles == RemoveAt(old(handles), n)
      ensures ok ==> ShowAll(site, shown[from..], got[..i + 1], cache.files, right)
      ensures right ==> ok && Keeping()
    {
      hide Build, Trusted, Right, Keeping, Shows, ShowAll, Noticing;
      ghost var log, shows := shown[from..], Noticing(got[i]) || Keeping();
      ok := LoadOne(got[i], n);
      if ok {
        ShowsWeaker(site, Last(shown), got[i], cache.files, shows, right);
        ShowOneMore(site, log, got[..i], Last(shown), got[i], cache.files, right);
        assert shown[from..] == log + [Last(shown)] && got[..i + 1] == got[..i] + [got[i]];
      }
    }

    /** load_posts: refreshes the posts and releases the references; false if the
        assertion that the refresh succeeds fails. */
    method LoadPosts(got: seq<Post>, n: nat) returns (ok: bool)
      requires Valid() && n <= |handles| && handles[n..] == got
      requires forall p :: p in got ==> p in index.Posts()
      modifies `handles, `posts, `destroyed, `shown, got
      ensures Valid() && posts == old(posts) && destroyed == old(destroyed) && old(shown) <= shown
      ensures ok ==> handles == old(handles)[..n]
                     && ShowAll(site, shown[|old(shown)|..], got, cache.files, old(Keeping()))
      ensures old(Keeping()) ==> ok && Keeping()
    {
      hide Build, Trusted, Right, Keeping, Shows, ShowAll;
      ghost var rest, from := handles[..n], |shown|;
      EmptyLog(site, cache.files, Keeping());
      assert shown[from..] == [] && got[..0] == [];
      for i := 0 to |got|
        invariant Valid() && posts == old(posts) && destroyed == old(destroyed) && old(shown) <= shown
        invariant handles == rest + got[i..]
        invariant ShowAll(site, shown[from..], got[..i], cache.files, old(Keeping()))
        invariant old(Keeping()) ==> Keeping()
      {
        assert handles[n] == got[i];
        ok := LoadNext(got, i, n, from, old(Keeping()));
        if !ok {
          return;
        }
        assert handles == rest + got[i + 1..];
      }
      assert got[..|got|] == got;
      ok := true;
    }

    // ----- Requests -----------------------------------------------------------------------

    /** The rest of load_post without interruption: its assertion holds. */
    method FinishLoad(post: Post) returns (ok: bool)
      requires Valid() && |loading| > 0 && Last(loading) == post && post.files == map[]
      requires !index.HasId(post.id)
      modifies `handles, `loading, `posts, `destroyed, index, index.Subs(), post
      ensures Valid() && fresh(index.Subs() - old(index.Subs()))
      ensures ok == Build(site, post.id, cache.files).Some?
      ensures ok ==> Current(post) && post.files != map[]
      ensures loading == DropLast(old(loading)) && handles == old(handles) + if ok then [post] else []
      ensures index.Posts() == old(index.Posts()) + if ok then {post} else {}
      ensures posts == old(posts) - if ok then {} else {post}
    {
      hide Build, Coherent, Trusted, Right;
      ok := RefreshLoading(post, |loading| - 1);
      if ok {
        CoherentIsTrusted(site, post, cache.files);
        var result := InsertLoading(post, |loading| - 1);
        assert result.Loaded?;
      }
    }

    /** The indexed post with this id, if there is one, notices what has changed. */
    ghost predicate NoticingId(id: nat)
      reads index`byId, cache, index.Posts()
    {
      forall p :: p in index.Posts() && p.id == id ==> Noticing(p)
    }

    /** load_post */
    method LoadPost(id: nat) returns (found: Option<Post>)
      requires Valid()
      modifies `handles, `loading, `posts, `destroyed, index, index.Subs(), index.Posts()`refcnt
      ensures Valid() && fresh(index.Subs() - old(index.Subs())) && loading == old(loading)
      ensures old(posts) <= posts && fresh(posts - old(posts))
      ensures found.Some? <==> old(index.HasId(id)) || Build(site, id, cache.files).Some?
      ensures match found
              case None => handles == old(handles) && index.Posts() == old(index.Posts()) && posts == old(posts)
              case Some(post) =>
                && post.id == id && handles == old(handles) + [post]
                && index.Posts() == old(index.Posts()) + {post} && posts == old(posts) + {post}
                && (post in old(index.Posts()) || (fresh(post) && Current(post) && post.files != map[]))
    {
      hide Build, Coherent, Trusted;
      found := StartLoad(id);
      if found.None? {
        var post := Last(loading);
        var ok := FinishLoad(post);
        found := if ok then Some(post) else None;
      }
    }

    /** The post is found exactly if it is indexed or can be built, and only it can
        be new in the index. */
    twostate predicate Found(id: nat, found: bool)
      reads `posts, index, cache
    {
      && (found <==> old(index.HasId(id)) || Build(site, id, cache.files).Some?)
      && old(posts) <= posts && old(index.Posts()) <= index.Posts()
      && (forall p :: p in posts && p !in old(posts) ==> p in index.Posts())
      && (forall p :: p in index.Posts() && p !in old(index.Posts()) ==> p.id == id && p !in old(posts))
      && (if found then exists p :: p in index.Posts() && p.id == id else index.Posts() == old(index.Posts()))
    }

    /** load_post yields a post that notices what has changed. */
    method LoadNoticing(id: nat) returns (found: Option<Post>)
      requires Valid()
      modifies `handles, `loading, `posts, `destroyed, index, index.Subs(), index.Posts()`refcnt
      ensures Valid() && fresh(index.Subs() - old(index.Subs())) && loading == old(loading)
      ensures Found(id, found.Some?) && fresh(posts - old(posts))
      ensures match found
              case None => handles == old(handles)
              case Some(post) =>
                post.id == id && handles == old(handles) + [post] && post in index.Posts() && post in posts
      ensures found.Some? && old(NoticingId(id)) ==> Noticing(found.value)
      ensures old(Keeping()) ==> Keeping()
    {
      hide Build, Trusted, Valid, Index.HasId;
      InMemory();
      found := LoadPost(id);
      forall p | old(Keeping()) && p in posts
        ensures Current(p) && (p !in loading ==> p.files != map[])
      {
        assert p in old(posts) ==> old(Current(p));
      }
    }

    /** A request leaves no trace: the same references are held as before. */
    twostate predicate Balanced()
      reads `handles, `loading, `posts, posts
    {
      && handles == old(handles) && loading == old(loading) && old(posts) <= posts
      && forall p :: p in old(posts) ==> p.refcnt == old(p.refcnt)
    }

    /** get_post but for the balance. */
    method ShowFound(id: nat) returns (outcome: Outcome)
      requires Valid()
      modifies `handles, `loading, `posts, `destroyed, `shown, index, index.Subs(), posts
      ensures Valid() && fresh(index.Subs() - old(index.Subs())) && fresh(posts - old(posts))
      ensures loading == old(loading) && forall p :: p in loading ==> p.files == old(p.files)
      ensures Found(id, outcome != NotFound) && outcome != InsertFailed
      ensures outcome != RefreshFailed ==> handles == old(handles)
      ensures old(shown) <= shown && (outcome != Done ==> shown == old(shown))
      ensures outcome == Done ==> ShowsOne(id, old(shown), old(NoticingId(id)))
      ensures old(Keeping()) ==> outcome != RefreshFailed && Keeping()
    {
      hide Build, Trusted, Right, Keeping, Current, Noticing, NoticingId, Shows, Valid, Found;
      InMemory();
      var found := LoadNoticing(id);
      outcome := NotFound;
      if found.Some? {
        ghost var right := Noticing(found.value) || Keeping();
        var ok := LoadOne(found.value, |handles| - 1);
        if !ok {
          return RefreshFailed;
        }
        ShowsWeaker(site, Last(shown), found.value, cache.files, right, old(NoticingId(id)));
        outcome := Done;
      }
    }

    /** One more entry, for an indexed post with this id. */
    ghost predicate ShowsOne(id: nat, before: seq<Shown>, right: bool)
      reads `shown, index`byId, cache
    {
      exists p :: p in index.Posts() && p.id == id && shown != [] && DropLast(shown) == before
                  && Shows(site, Last(shown), p, cache.files, right)
    }

    lemma ShowsOneRight(id: nat, before: seq<Shown>)
      requires ShowsOne(id, before, true)
      ensures AllRight(|before|)
    {
      hide Build;
    }

    lemma NothingShown()
      ensures AllRight(|shown|)
    {
      hide Right;
    }

    lemma CountedIn(p: Post)
      requires Valid() && p in posts
      ensures Counted(p)
    {}

    /** get_post */
    method GetPost(id: nat) returns (outcome: Outcome)
      requires Valid()
      modifies `handles, `loading, `posts, `destroyed, `shown, index, index.Subs(), posts
      ensures Valid() && fresh(index.Subs() - old(index.Subs())) && fresh(posts - old(posts))
      ensures loading == old(loading) && forall p :: p in loading ==> p.files == old(p.files)
      ensures Found(id, outcome != NotFound) && outcome != InsertFailed
      ensures outcome != RefreshFailed ==> Balanced()
      ensures old(shown) <= shown && (outcome != Done ==> shown == old(shown))
      ensures outcome == Done ==> ShowsOne(id, old(shown), old(NoticingId(id)))
      ensures old(Keeping()) ==> outcome != RefreshFailed && Keeping()
    {
      hide Build, Keeping, NoticingId, ShowsOne, Valid;
      forall p | p in posts ensures Counted(p) {
        CountedIn(p);
      }
      outcome := ShowFound(id);
      forall p | outcome != RefreshFailed && p in old(posts) ensures p.refcnt == old(p.refcnt) {
        CountedIn(p);
      }
    }

    /** index_get_posts followed by load_posts */
    method ListPage(tag: Option<string>, pred: Pred, skip: int, n: nat) returns (outcome: Outcome)
      requires Valid()
      modifies `handles, `posts, `destroyed, `shown, posts
      ensures Valid() && posts == old(posts) && destroyed == old(destroyed) && old(shown) <= shown
      ensures forall p :: p in loading ==> p.files == old(p.files)
      ensures outcome == RefreshFailed || (outcome == Done && Balanced())
      ensures outcome == Done ==>
                ShowAll(site, shown[|old(shown)|..], old(Selection(index, tag, pred, skip, n)), cache.files,
                        old(Keeping()))
      ensures old(Keeping()) ==> outcome != RefreshFailed && Keeping()
    {
      hide Build, Trusted, Right, Keeping, Selection, ShowAll;
      var held := |handles|;
      var got := List(tag, pred, skip, n);
      var ok := LoadPosts(got, held);
      if !ok {
        return RefreshFailed;
      }
      assert handles == old(handles);
      forall p | p in old(posts) ensures p.refcnt == old(p.refcnt) {
        assert old(Counted(p)) && Counted(p);
      }
      outcome := Done;
    }

    // ----- The store in terms of its operations -------------------------------------------

    lemma IdTaken(id: nat)
      requires index.Valid()
      ensures index.HasId(id) <==> exists p :: p in index.Posts() && p.id == id
    {
      forall g | g in index.byId ensures g.id == g.post.id {
        assert GlobalOk(g, index.byTag);
      }
      var ids := index.byId;
      if index.HasId(id) {
        var i :| 0 <= i < |ids| && IdCmp(IdOf(ids[i]), id) == 0;
        assert ids[i] in ids && ids[i].post in index.Posts();
      }
      if p :| p in index.Posts() && p.id == id {
        var g :| g in ids && g.post == p;
        var i :| 0 <= i < |ids| && ids[i] == g;
        assert IdCmp(IdOf(ids[i]), id) == 0;
      }
    }

    lemma IdListed(id: nat)
      requires Valid()
      ensures index.HasId(id) <==> id in IdsOf(index.Posts())
    {
      IdTaken(id);
    }

    /** What PostRuns knows of the store. */
    ghost predicate Summarises(s: Summary)
      reads `loading, loading`files, index`byId, cache
    {
      s.ids == IdsOf(index.Posts()) && LoadsOf(s.loading, loading) && s.files == cache.files
    }

    /** Every post in memory is indexed or being loaded. */
    ghost predicate Settled()
      reads `posts, `loading, index`byId
    {
      forall p :: p in posts ==> p in index.Posts() || p in loading
    }

    /** The operation does what it does to the summary, and fails its insertion only
        where loads collide. */
    twostate predicate Follows(s: Summary, op: Op, outcome: Outcome)
      reads `posts, `loading, loading`files, index`byId, cache
    {
      && Summarises(Next(site, s, op))
      && (outcome == InsertFailed <==> Collides(s, op))
      && (old(Settled()) && outcome != InsertFailed ==> Settled())
    }

    method StepStart(id: nat, ghost s: Summary)
      requires Valid() && Summarises(s)
      modifies `handles, `loading, `posts, index.Posts()`refcnt
      ensures Valid() && fresh(posts - old(posts)) && old(posts) <= posts
      ensures Follows(s, Start(id), Done)
      ensures old(Keeping()) ==> Keeping()
    {
      hide Build, Coherent;
      IdTaken(id);
      var found := StartLoad(id);
      forall p | old(Keeping()) && p in posts
        ensures Current(p) && (p !in loading ==> p.files != map[])
      {
        assert p in old(posts) ==> old(Current(p));
      }
    }

    /** RefreshLoading keeps all posts current. */
    method RefreshKeeping(post: Post, k: nat) returns (ok: bool)
      requires Valid() && k < |loading| && loading[k] == post && post.files == map[]
      modifies `loading, `posts, `destroyed, post
      ensures Valid() && ok == Build(site, post.id, cache.files).Some? && (ok ==> post.files != map[])
      ensures loading == RemoveAt(old(loading), k) + (if ok then [post] else []) && post !in RemoveAt(old(loading), k)
      ensures posts == old(posts) - if ok then {} else {post}
      ensures old(Keeping()) ==> Keeping()
    {
      hide Build, Coherent, Trusted, Right;
      ok := RefreshLoading(post, k);
      if ok {
        CoherentIsTrusted(site, post, cache.files);
      }
      forall p | old(Keeping()) && p in posts
        ensures Current(p) && (p !in loading ==> p.files != map[])
      {
        assert old(Current(p));
      }
    }

    method StepRefresh(k: nat, ghost s: Summary) returns (outcome: Outcome)
      requires Valid() && Summarises(s)
      modifies `loading, `posts, `destroyed, loading
      ensures Valid() && posts <= old(posts) && outcome != RefreshFailed
      ensures Follows(s, RefreshStarted(k), outcome)
      ensures old(Keeping()) ==> Keeping()
    {
      hide Build, Keeping, Valid;
      if k >= |loading| || loading[k].files != map[] {
        return NotFound;
      }
      LoadRemoved(s.loading, loading, k);
      OthersRemain(loading, k);
      var ok := RefreshKeeping(loading[k], k);
      outcome := if ok then Done else NotFound;
    }

    /** InsertLoading keeps all posts current. */
    method InsertKeeping(post: Post, k: nat) returns (result: LoadResult)
      requires Valid() && k < |loading| && loading[k] == post && post.files != map[]
      modifies `handles, `loading, `posts, index, index.Subs(), post`refcnt
      ensures Valid() && fresh(index.Subs() - old(index.Subs())) && posts == old(posts)
      ensures result == if old(index.HasId(post.id)) then LoadAborted else Loaded(post)
      ensures index.Posts() == old(index.Posts()) + if result.Loaded? then {post} else {}
      ensures loading == RemoveAt(old(loading), k)
      ensures old(Keeping()) ==> Keeping()
    {
      hide Current, RemoveAt;
      OthersRemain(loading, k);
      result := InsertLoading(post, k);
      forall p | old(Keeping()) && p in posts
        ensures Current(p) && (p !in loading ==> p.files != map[])
      {
        assert old(Current(p));
      }
    }

    /** Only a post that has been refreshed is inserted. */
    method StepInsert(k: nat, ghost s: Summary) returns (outcome: Outcome)
      requires Valid() && Summarises(s)
      modifies `handles, `loading, `posts, index, index.Subs(), loading`refcnt
      ensures Valid() && fresh(index.Subs() - old(index.Subs())) && posts == old(posts)
      ensures old(index.Posts()) <= index.Posts() && outcome != RefreshFailed
      ensures Follows(s, InsertStarted(k), outcome)
      ensures old(Keeping()) ==> Keeping()
    {
      hide Valid, Keeping, IdsOf, LoadsOf, Next, Collides, Index.HasId, Index.Posts;
      LoadAt(s.loading, loading, k);
      if k >= |loading| || loading[k].files == map[] {
        NoInsert(site, s, k);
        return NotFound;
      }
      LoadRemoved(s.loading, loading, k);
      OthersRemain(loading, k);
      var post := loading[k];
      IdListed(post.id);
      InsertIds(site, s, k, post, index.Posts(), !index.HasId(post.id));
      var result := InsertKeeping(post, k);
      outcome := if result.Loaded? then Done else InsertFailed;
    }

    // ----- Runs ---------------------------------------------------------------------------

    lemma InMemory()
      requires Valid()
      ensures forall p :: p in index.Posts() + (set q | q in handles + loading) ==> p in posts
    {
      forall p | p in loading ensures p in posts {
        assert New(p);
      }
    }

    method StepRelease(k: nat, ghost s: Summary) returns (outcome: Outcome)
      requires Valid() && Summarises(s)
      modifies `handles, `posts, `destroyed, handles`refcnt
      ensures Valid() && posts <= old(posts) && outcome != RefreshFailed
      ensures Follows(s, Release(k), outcome)
      ensures old(Keeping()) ==> Keeping()
    {
      hide Current;
      if k >= |handles| {
        return NotFound;
      }
      outcome := Done;
      PutRef(handles[k], k);
      forall p | old(Keeping()) && p in posts
        ensures Current(p) && (p !in loading ==> p.files != map[])
      {
        assert old(Current(p));
      }
    }

    method StepHeld(k: nat, ghost s: Summary) returns (outcome: Outcome)
      requires Valid() && Summarises(s)
      modifies `shown, handles
      ensures Valid() && old(shown) <= shown
      ensures Follows(s, RefreshHeld(k), outcome)
      ensures old(Keeping()) ==> Keeping() && outcome != RefreshFailed && AllRight(|old(shown)|)
    {
      hide Build, Trusted, Right;
      if k >= |handles| {
        return NotFound;
      }
      var post := handles[k];
      var ok := Refresh(post);
      outcome := if ok then Done else RefreshFailed;
      assert old(Keeping()) ==> old(Current(post)) && old(post.files != map[]);
      forall p | old(Keeping()) && p in posts
        ensures Current(p) && (p !in loading ==> p.files != map[])
      {
        assert old(Current(p));
      }
    }

    /** Everything shown since `from` was right. */
    ghost predicate AllRight(from: nat)
      reads `shown
    {
      forall i :: from <= i < |shown| ==> Right(site, shown[i])
    }

    /** What has been built is live. */
    lemma InLive(p: Post, s: Summary)
      requires Summarises(s) && Settled() && p in posts && p.files != map[]
      ensures p.id in Live(s)
    {
      if p in loading {
        var i :| 0 <= i < |loading| && loading[i] == p;
        assert s.loading[i] == Load(p.id, true);
      }
    }

    /** Changes by the rules. */
    method StepChange(files: Files, ghost s: Summary)
      requires Valid() && Summarises(s)
      modifies cache
      ensures Valid() && Follows(s, Change(files), Done)
      ensures old(Keeping() && Settled()) && Gentle(site, s, files) ==> Keeping()
    {
      hide Build, Trusted, Later, StillMissing;
      forall p | Settled() && p in posts && p.files != map[]
        ensures p.id in Live(s)
      {
        InLive(p, s);
      }
      cache.files := files;
      forall p | old(Keeping() && Settled()) && Gentle(site, s, files) && p in posts
        ensures Current(p) && (p !in loading ==> p.files != map[])
      {
        assert old(Current(p));
        TrustedLater(site, p, p.base, old(cache.files), files);
      }
    }

    /** Any step keeps the books, takes no post out of the index, and does to the
        summary what the operation says.  While the files change by the rules, every
        refresh succeeds and what is shown is right. */
    method Step(op: Op, ghost s: Summary) returns (outcome: Outcome)
      requires Valid() && Summarises(s)
      modifies this, index, index.Subs(), posts, cache
      ensures Valid() && fresh(index.Subs() - old(index.Subs())) && fresh(posts - old(posts))
      ensures old(index.Posts()) <= index.Posts() && old(shown) <= shown
      ensures Follows(s, op, outcome)
      ensures old(Keeping() && Settled()) && (op.Change? ==> Gentle(site, s, op.files)) ==>
                Keeping() && outcome != RefreshFailed && AllRight(|old(shown)|)
    {
      hide Keeping, Gentle, Right, Current, Valid, Build, AllRight, Live;
      InMemory();
      NothingShown();
      outcome := Done;
      match op
      case LookupPost(id) =>
        var found := IndexLookupPost(id);
      case Start(id) =>
        StepStart(id, s);
      case RefreshStarted(k) =>
        outcome := StepRefresh(k, s);
      case InsertStarted(k) =>
        outcome := StepInsert(k, s);
      case Release(k) =>
        outcome := StepRelease(k, s);
      case RefreshHeld(k) =>
        outcome := StepHeld(k, s);
      case ListSome(tag, pred, skip, n) =>
        var got := List(tag, pred, skip, n);
      case ShowPost(id) =>
        outcome := StepShow(id, s);
      case ShowPage(tag, pred, skip, n) =>
        outcome := StepPage(tag, pred, skip, n, s);
      case Change(files) =>
        StepChange(files, s);
    }

    /** While all posts are current, what get_post shows is right. */
    method ShowRight(id: nat) returns (outcome: Outcome)
      requires Valid()
      modifies `handles, `loading, `posts, `destroyed, `shown, index, index.Subs(), posts
      ensures Valid() && fresh(index.Subs() - old(index.Subs())) && fresh(posts - old(posts))
      ensures loading == old(loading) && forall p :: p in loading ==> p.files == old(p.files)
      ensures Found(id, outcome != NotFound) && outcome != InsertFailed && old(shown) <= shown
      ensures old(Keeping()) ==> Keeping() && outcome != RefreshFailed && AllRight(|old(shown)|)
    {
      hide Keeping, Valid, NoticingId, ShowsOne, AllRight, Found;
      KeepingNotices(id);
      outcome := GetPost(id);
      if outcome == Done && old(NoticingId(id)) {
        ShowsOneRight(id, old(shown));
      }
      NothingShown();
    }

    method StepShow(id: nat, ghost s: Summary) returns (outcome: Outcome)
      requires Valid() && Summarises(s)
      modifies `handles, `loading, `posts, `destroyed, `shown, index, index.Subs(), posts
      ensures Valid() && fresh(index.Subs() - old(index.Subs())) && fresh(posts - old(posts))
      ensures old(index.Posts()) <= index.Posts() && old(shown) <= shown
      ensures Follows(s, ShowPost(id), outcome)
      ensures old(Keeping()) ==> Keeping() && outcome != RefreshFailed && AllRight(|old(shown)|)
    {
      hide Build, Keeping, Valid, IdsOf, AllRight, Next, LoadsOf, Index.HasId, Index.Posts;
      IdListed(id);
      outcome := ShowRight(id);
      ShowIds(site, s, id, old(index.Posts()), index.Posts(), outcome != NotFound);
    }

    lemma KeepingNotices(id: nat)
      requires Valid()
      ensures Keeping() ==> NoticingId(id)
    {
      hide Build, Trusted;
      InMemory();
      forall p | Keeping() && p in index.Posts() && p.id == id
        ensures Noticing(p)
      {
        assert Current(p);
      }
    }

    method StepPage(tag: Option<string>, pred: Pred, skip: int, n: nat, ghost s: Summary) returns (outcome: Outcome)
      requires Valid() && Summarises(s)
      modifies `handles, `posts, `destroyed, `shown, posts
      ensures Valid() && posts == old(posts) && old(shown) <= shown
      ensures Follows(s, ShowPage(tag, pred, skip, n), outcome)
      ensures old(Keeping()) ==> Keeping() && outcome != RefreshFailed && AllRight(|old(shown)|)
    {
      hide Build, Trusted, Right, Keeping, Selection;
      ghost var from := |shown|;
      outcome := ListPage(tag, pred, skip, n);
      forall i | old(Keeping()) && from <= i < |shown|
        ensures Right(site, shown[i])
      {
        assert shown[i] == shown[from..][i - from];
      }
    }

    /** Any run, up to a failed assertion: every post in memory is counted exactly, and
        indexed posts stay indexed and are never destroyed.  An insertion fails exactly
        if loads collide.  While the files change by the rules no refresh fails, and
        every request shows its posts as they are built from the files of that moment. */
    method Run(ops: seq<Op>, ghost s: Summary) returns (outcome: Outcome)
      requires Valid() && Keeping() && Settled() && Summarises(s)
      modifies this, index, index.Subs(), posts, cache
      ensures Valid() && old(index.Posts()) <= index.Posts() && index.Posts() !! destroyed
      ensures outcome == InsertFailed ==> SomeCollides(site, s, ops)
      ensures outcome !in {InsertFailed, RefreshFailed} ==>
                !SomeCollides(site, s, ops) && Summarises(NextAll(site, s, ops))
      ensures AllGentle(site, s, ops) ==> outcome != RefreshFailed && Keeping() && AllRight(|old(shown)|)
    {
      hide Keeping, Gentle, Right, Collides, Next, Summarises, Settled;
      outcome := Done;
      ghost var now := s;
      for i := 0 to |ops|
        invariant Valid() && old(index.Posts()) <= index.Posts() && old(shown) <= shown
        invariant fresh(index.Subs() - old(index.Subs())) && fresh(posts - old(posts))
        invariant outcome !in {InsertFailed, RefreshFailed} && Settled() && Summarises(now)
        invariant NextAll(site, s, ops) == NextAll(site, now, ops[i..])
        invariant SomeCollides(site, s, ops) <==> SomeCollides(site, now, ops[i..])
        invariant AllGentle(site, s, ops) ==> AllGentle(site, now, ops[i..]) && Keeping() && AllRight(|old(shown)|)
      {
        assert ops[i..][1..] == ops[i + 1..];
        outcome := Step(ops[i], now);
        if outcome == RefreshFailed || outcome == InsertFailed {
          return;
        }
        now := Next(site, now, ops[i]);
      }
    }

    // ----- The end ------------------------------------------------------------------------

    /** free_all_posts leaves the counts of the holders. */
    method FreeIndex(mem: PostTeardown.Memory)
      requires Valid() && PostTeardown.Owned(index) !! mem.freed
      modifies mem, index, index.byTag, index.byId, index.Posts()`refcnt
      ensures index.Valid() && index.Posts() == {}
      ensures mem.freed == old(mem.freed + PostTeardown.Owned(index))
      ensures forall p :: p in posts ==> !p.preview && p.refcnt == Times(handles, p) + Times(loading, p)
      ensures forall p :: p in loading ==> p in posts && p.refcnt == 1 && TagTree(p.tags)
    {
      forall p | p in posts ensures p.refcnt > 0 && !p.preview {
        assert Counted(p);
      }
      PostTeardown.FreeAllPosts(mem, index);
      forall p | p in posts ensures p.refcnt == Times(handles, p) + Times(loading, p) {
        assert old(Counted(p));
      }
      forall p | p in loading ensures p in posts && p.refcnt == 1 && TagTree(p.tags) {
        assert old(New(p));
      }
    }

    /** free_all_posts: what remains in memory are the posts somebody still holds. */
    method Shutdown(mem: PostTeardown.Memory)
      requires Valid() && PostTeardown.Owned(index) !! mem.freed
      modifies mem, index, index.byTag, index.byId, index.Posts()`refcnt, `posts, `destroyed
      ensures Valid() && index.Posts() == {}
      ensures mem.freed == old(mem.freed + PostTeardown.Owned(index))
      ensures posts <= old(posts) && forall p :: p in old(posts) ==> (p in posts <==> p in handles || p in loading)
      ensures destroyed == old(destroyed) + (old(posts) - posts)
    {
      InMemory();
      FreeIndex(mem);
      ghost var held := set p | p in posts && (p in handles || p in loading);
      posts, destroyed := held, destroyed + (posts - held);
      forall p | p in posts ensures Counted(p) {
        TimesIn(handles, p);
        TimesIn(loading, p);
      }
      forall p | p in loading ensures p in posts && New(p) {}
    }
  }
  /** A daemon from its start.  No insertion fails unless loads of one id overlap,
      and while the files change by the rules an insertion fails exactly if loads
      collide, no refresh fails, and everything shown is right. */
  method Serve(site: Site, cache: FileCache, ops: seq<Op>) returns (store: Store, outcome: Outcome)
    modifies cache
    ensures store.Valid() && store.index.Posts() !! store.destroyed
    ensures Apart(ops) ==> outcome != InsertFailed
    ensures AllOrderly(site, old(cache.files), ops) ==>
              && outcome != RefreshFailed && store.AllRight(0)
              && (outcome == InsertFailed <==> SomeCollides(site, Summary({}, [], old(cache.files)), ops))
  {
    hide Build, Store.Valid, Store.Keeping, Store.Settled, Store.Summarises, Gentle, Orderly, Next, Collides;
    store := new Store(site, cache);
    ghost var s := Summary({}, [], cache.files);
    outcome := store.Run(ops, s);
    StartsClean(site, s);
    if Apart(ops) {
      ApartNeverOverlaps(site, s, ops);
    }
    if SomeCollides(site, s, ops) {
      CollisionsOverlap(site, s, ops);
    }
    if AllOrderly(site, s.files, ops) {
      OrderlyIsGentle(site, s, ops);
    }
  }

  lemma StartsClean(site: Site, s: Summary)
    requires s.ids == {} && s.loading == []
    ensures NoRace(s) && AllBuild(site, s)
  {}
}
