/**
 Two runs that show what the contracts of PostCache and PostStore leave open: an image
 that outlives the command that set it, and two loads of one post that collide.
 */
module PostExamples {
  import opened Basics
  import opened Posts
  import opened Tags
  import opened PostBuild
  import opened PostCache
  import opened PostRuns
  import opened PostStore
  import Fmt3

  /** A site whose posts hold an image command exactly if post.tex says "image". */
  const SITE: Site := Site("", "", "", "", "", "",
                           (s: string) => Some(Meta(None, None, 3, true, [], [])),
                           (s: string) => None,
                           (s: string) => Some(Fmt3.Document(Fmt3.Single(Fmt3.Start(
                             if s == "image" then Fmt3.TwitterImgCmd("picture") else Fmt3.Newline)))),
                           (t: Option<string>) => 0)

  function PostFiles(tex: string, rev: nat): Files
  {
    map[LispPath(SITE, 0) := File("", 0), TexPath(SITE, 0) := File(tex, rev)]
  }

  lemma PathsDiffer()
    ensures LispPath(SITE, 0) != TexPath(SITE, 0)
  {
    assert |LispPath(SITE, 0)| == |TexPath(SITE, 0)| + 1;
  }

  /** What such a post builds to. */
  lemma ExampleBuilds(tex: string, rev: nat)
    ensures var built := Build(SITE, 0, PostFiles(tex, rev));
            && built.Some? && built.value.asked == [LispPath(SITE, 0), TexPath(SITE, 0)]
            && built.value.twitterImg == if tex == "image" then Some("picture") else None
    ensures Complete(SITE, 0, PostFiles(tex, rev))
  {
    PathsDiffer();
    var files := PostFiles(tex, rev);
    var t := if tex == "image" then Fmt3.TwitterImgCmd("picture") else Fmt3.Newline;
    var env := EnvOf(SITE, 0, files);
    assert ReadFile(files, LispPath(SITE, 0)) == Some("") && ReadFile(files, TexPath(SITE, 0)) == Some(tex);
    assert Parsed(files, LispPath(SITE, 0), SITE.parseMeta) == Some(Meta(None, None, 3, true, [], []));
    assert Parsed(files, TexPath(SITE, 0), SITE.parseTex) == Some(Fmt3.Document(Fmt3.Single(Fmt3.Start(t))));
    assert AddComments(SITE, 0, files, []) == Some(Comments([], [LispPath(SITE, 0)]));
    assert Fmt3.ParagraphOut(env, Fmt3.Start(t), Fmt3.INITIAL) == Fmt3.ThingOut(env, t, Fmt3.INITIAL);
    assert Fmt3.ParagraphsOut(env, Fmt3.Single(Fmt3.Start(t)), Fmt3.INITIAL).Ok?;
  }

  lemma TexChanges()
    ensures Later(PostFiles("image", 0), PostFiles("", 1))
  {
    PathsDiffer();
  }

  /** The image command is removed from post.tex and the post is refreshed: everything
      is as in a build from scratch, except that the image is still there. */
  method StaleImage() returns (post: Post, cache: FileCache)
    ensures post.id == 0 && Coherent(SITE, post, cache.files)
    ensures Build(SITE, 0, cache.files).value.twitterImg == None && post.twitterImg == Some("picture")
  {
    hide Build, Complete, Trusted, Later, PostFiles;
    ExampleBuilds("image", 0);
    ExampleBuilds("", 1);
    TexChanges();
    var before, after := PostFiles("image", 0), PostFiles("", 1);
    post := new Post(0, false);
    cache := new FileCache(before);
    NewIsTrusted(SITE, post, before, before);
    FirstRefresh(post, cache, before);
    CompleteIsTrusted(SITE, post, before, after);
    cache.files := after;
    var ok := PostRefresh(SITE, post, cache, 0, before);
  }

  /** A first refresh takes the image over. */
  method FirstRefresh(post: Post, cache: FileCache, files: Files)
    requires !post.preview && post.id == 0 && Trusted(SITE, post, files, files) && cache.files == files
    requires Build(SITE, 0, files).Some? && Build(SITE, 0, files).value.twitterImg == Some("picture")
    modifies post
    ensures Coherent(SITE, post, files) && post.twitterImg == Some("picture")
  {
    var ok := PostRefresh(SITE, post, cache, 0, files);
  }

  /** Two loads of the same post, both of which look it up before either inserts it. */
  function TwoLoads(id: nat): seq<Op>
  {
    [Start(id), Start(id), RefreshStarted(0), RefreshStarted(0), InsertStarted(0), InsertStarted(0)]
  }

  lemma TwoLoadsCollide(site: Site, id: nat, files: Files)
    requires Build(site, id, files).Some?
    ensures SomeCollides(site, Summary({}, [], files), TwoLoads(id))
  {
    hide Build;
    var ops := TwoLoads(id);
    var none, built := Load(id, false), Load(id, true);
    assert ops[5..][1..] == [] && ops[4..][1..] == ops[5..] && ops[3..][1..] == ops[4..];
    assert ops[2..][1..] == ops[3..] && ops[1..][1..] == ops[2..];
    assert SomeCollides(site, Summary({id}, [built], files), ops[5..]);
    assert SomeCollides(site, Summary({}, [built, built], files), ops[4..]);
    assert SomeCollides(site, Summary({}, [none, built], files), ops[3..]);
    assert SomeCollides(site, Summary({}, [none, none], files), ops[2..]);
    assert SomeCollides(site, Summary({}, [none], files), ops[1..]);
    var start := Summary({}, [], files);
    assert Next(site, start, ops[0]).loading == [none];
  }

  lemma {:induction false} NoChangesOrderly(site: Site, files: Files, ops: seq<Op>)
    requires forall i :: 0 <= i < |ops| ==> !ops[i].Change?
    ensures AllOrderly(site, files, ops)
    decreases |ops|
  {
    if ops != [] {
      NoChangesOrderly(site, files, ops[1..]);
    }
  }

  /** The assertion in the second one fails. */
  method OverlappingLoads(site: Site, cache: FileCache, id: nat) returns (store: Store, outcome: Outcome)
    requires Build(site, id, cache.files).Some?
    modifies cache
    ensures store.Valid() && outcome == InsertFailed
  {
    hide Build;
    TwoLoadsCollide(site, id, cache.files);
    NoChangesOrderly(site, cache.files, TwoLoads(id));
    store, outcome := Serve(site, cache, TwoLoads(id));
  }
}
