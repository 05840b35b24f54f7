/**
 A post in memory (post.h) and the file cache it is built from.  The cache is
 seen as a map from paths to contents and revisions.
 */
module Posts {
  import opened Basics

  datatype File = File(content: string, rev: nat)
  type Files = map<string, File>

  class FileCache {
    var files: Files

    constructor (files: Files)
      ensures this.files == files
    {
      this.files := files;
    }
  }

  datatype Comment = Comment(id: nat, author: string, email: Option<string>, time: nat, ip: Option<string>,
                             url: Option<string>, body: string)

  /** The revisions of those files that could be read, as recorded in order. */
  function Record(files: Files, paths: seq<string>): map<string, nat>
  {
    if paths == [] then map[]
    else if Last(paths) in files then Record(files, DropLast(paths))[Last(paths) := files[Last(paths)].rev]
    else Record(files, DropLast(paths))
  }

  lemma {:induction false} RecordedPaths(files: Files, paths: seq<string>)
    ensures forall p :: p in Record(files, paths) <==> p in paths && p in files
    ensures forall p :: p in Record(files, paths) ==> Record(files, paths)[p] == files[p].rev
  {
    if paths != [] {
      RecordedPaths(files, DropLast(paths));
      assert paths == DropLast(paths) + [Last(paths)];
    }
  }

  function ReadFile(files: Files, path: string): Option<string>
  {
    if path in files then Some(files[path].content) else None
  }

  class Post {
    const id: nat
    const preview: bool
    var refcnt: nat
    var listed: bool
    var time: nat
    var title: Option<string>
    var fmt: nat
    var tags: seq<string>
    var comments: seq<Comment>
    var numcom: nat
    var body: string
    var twitterImg: Option<string>
    /** The revision of each file the post was built from. */
    var files: map<string, nat>
    /** Every path the last build asked for, found or not. */
    ghost var asked: seq<string>
    /** The contents of the file cache at that time, kept by whoever owns the post. */
    ghost var base: Files

    /** memset and the field initialisation in load_post. */
    constructor (id: nat, preview: bool)
      ensures this.id == id && this.preview == preview && refcnt == 1
      ensures files == map[] && asked == [] && tags == [] && comments == [] && numcom == 0
      ensures twitterImg == None && !listed && time == 0 && title == None && fmt == 0 && body == ""
    {
      this.id, this.preview := id, preview;
      refcnt := 1;
      listed, time, title, fmt := false, 0, None, 0;
      tags, comments, numcom, body, twitterImg := [], [], 0, "", None;
      files, asked, base := map[], [], map[];
    }

    method GetCachedFile(cache: FileCache, path: string) returns (out: Option<string>)
      modifies `files, `asked
      ensures out == ReadFile(cache.files, path)
      ensures asked == old(asked) + [path]
      ensures old(files) == Record(cache.files, old(asked)) ==> files == Record(cache.files, asked)
    {
      asked := asked + [path];
      if path !in cache.files {
        return None;
      }
      files := files[path := cache.files[path].rev];
      return Some(cache.files[path].content);
    }
  }

  /** Everything about a post that comes from its files. */
  datatype Data = Data(title: Option<string>, time: nat, fmt: nat, listed: bool, tags: seq<string>,
                       comments: seq<Comment>, numcom: nat, body: string)

  function DataOf(post: Post): Data
    reads post`title, post`time, post`fmt, post`listed, post`tags, post`comments, post`numcom, post`body
  {
    Data(post.title, post.time, post.fmt, post.listed, post.tags, post.comments, post.numcom, post.body)
  }
}
