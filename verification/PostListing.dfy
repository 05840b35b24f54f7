/**
 Listing posts: `index_get_posts` (post_index.c) and the pages that the index and
 tag requests make of it.
 */
module PostListing {
  import opened Basics
  import opened Posts
  import opened RbTree
  import opened PostIndex
  import Tags

  type Pred = Option<Data -> bool>

  // ----- Specification -----------------------------------------------------------------------

  /** The posts of a tree, newest first. */
  function Newest(view: seq<GlobalEntry>): (ps: seq<Post>)
    ensures |ps| == |view| && forall i :: 0 <= i < |ps| ==> ps[i] == view[|view| - 1 - i].post
  {
    if view == [] then [] else [Last(view).post] + Newest(DropLast(view))
  }

  /** The elements of a sequence that are in a set. */
  function Filter<T(==)>(s: seq<T>, keep: set<T>): seq<T>
  {
    if s == [] then []
    else if s[0] in keep then [s[0]] + Filter(s[1..], keep)
    else Filter(s[1..], keep)
  }

  function Take<T>(s: seq<T>, n: nat): seq<T>
  {
    if n <= |s| then s[..n] else s
  }

  function Drop<T>(s: seq<T>, n: nat): seq<T>
  {
    if n <= |s| then s[n..] else []
  }

  /** Whether a post is listed and satisfies the predicate, if there is one. */
  predicate Wanted(p: Post, pred: Pred)
    reads p`title, p`time, p`fmt, p`listed, p`tags, p`comments, p`numcom, p`body
  {
    p.listed && (pred.Some? ==> pred.value(DataOf(p)))
  }

  function ListedOf(ps: seq<Post>): set<Post>
    reads ps
  {
    set p | p in ps && p.listed
  }

  function WantedOf(ps: seq<Post>, pred: Pred): set<Post>
    reads ps
  {
    set p | p in ps && Wanted(p, pred)
  }

  /** Listed posts are skipped before the predicate is applied, and a negative
      skip skips them all. */
  function Select<T(==)>(s: seq<T>, listed: set<T>, matching: set<T>, skip: int, n: nat): seq<T>
  {
    if skip < 0 then []
    else Take(Filter(Drop(Filter(s, listed), skip), matching), n)
  }

  /** The listing a request chooses. */
  ghost function View(index: Index, tag: Option<string>): seq<GlobalEntry>
    reads index, index.byTag
  {
    match tag
    case None => index.TimeView()
    case Some(t) => index.TagView(t)
  }

  /** What index_get_posts returns. */
  ghost function Selection(index: Index, tag: Option<string>, pred: Pred, skip: int, n: nat): seq<Post>
    reads index, index.byTag, Newest(View(index, tag))
  {
    var ps := Newest(View(index, tag));
    Select(ps, ListedOf(ps), WantedOf(ps, pred), skip, n)
  }

  lemma ViewIndexed(index: Index, tag: Option<string>)
    requires index.Valid()
    ensures forall g :: g in View(index, tag) ==> g in index.byId
    ensures forall p :: p in Newest(View(index, tag)) ==> p in index.Posts()
  {
    var view := View(index, tag);
    forall i | 0 <= i < |view|
      ensures view[i] in index.byId
    {
      if tag.None? {
        assert index.byTime[i] in index.byTime;
      } else {
        var s := Lookup(index.byTag, tag.value, SubName, Tags.CaseCmp).elem;
        assert SubOk(s, index.byId);
        assert TagEntryOk(s.subindex[i], s.name, index.byId);
      }
    }
  }

  // ----- The loops ------------------------------------------------------------------------------

  lemma FilterStep<T>(s: seq<T>, i: nat, keep: set<T>)
    requires i < |s|
    ensures Filter(s[i..], keep) == (if s[i] in keep then [s[i]] else []) + Filter(s[i + 1..], keep)
  {
    assert s[i..][1..] == s[i + 1..];
  }

  /** The first loop: skips listed posts, newest first. */
  method SkipPosts(ps: seq<Post>, toSkip: int) returns (cur: nat)
    ensures cur <= |ps|
    ensures toSkip >= 0 ==> Filter(ps[cur..], ListedOf(ps)) == Drop(Filter(ps, ListedOf(ps)), toSkip)
    ensures toSkip < 0 ==> cur == |ps|
  {
    ghost var listed := ListedOf(ps);
    var skip := toSkip;
    cur := 0;
    assert ps[0..] == ps;
    while cur < |ps| && skip != 0
      invariant cur <= |ps|
      invariant toSkip >= 0 ==> skip >= 0 && Drop(Filter(ps, listed), toSkip) == Drop(Filter(ps[cur..], listed), skip)
      invariant toSkip < 0 ==> skip < 0
    {
      FilterStep(ps, cur, listed);
      if !ps[cur].listed {
        cur := cur + 1;
        continue;
      }
      skip := skip - 1;
      cur := cur + 1;
    }
    assert cur == |ps| ==> ps[cur..] == [];
  }

  /** How often a post occurs. */
  function Times(ps: seq<Post>, p: Post): nat
  {
    if ps == [] then 0 else Times(DropLast(ps), p) + if Last(ps) == p then 1 else 0
  }

  ghost predicate Filled(ret: array<Post?>, count: nat, out: seq<Post>)
    reads ret
  {
    count == |out| <= ret.Length && forall k :: 0 <= k < count ==> ret[k] == out[k]
  }

  lemma {:induction false} FilterSubset<T>(s: seq<T>, keep: set<T>)
    ensures forall x :: x in Filter(s, keep) ==> x in s && x in keep
  {
    if s != [] {
      FilterSubset(s[1..], keep);
    }
  }

  lemma SelectSubset<T>(s: seq<T>, listed: set<T>, matching: set<T>, skip: int, n: nat)
    ensures forall x :: x in Select(s, listed, matching, skip, n) ==> x in s && x in listed && x in matching
  {
    if skip >= 0 {
      FilterSubset(s, listed);
      assert forall x :: x in Drop(Filter(s, listed), skip) ==> x in Filter(s, listed);
      FilterSubset(Drop(Filter(s, listed), skip), matching);
    }
  }

  /** ret[i] = post_getref(post) */
  method ReturnPost(ret: array<Post?>, count: nat, post: Post, ghost out: seq<Post>)
    requires count < ret.Length && Filled(ret, count, out)
    modifies ret, post`refcnt
    ensures Filled(ret, count + 1, out + [post])
    ensures post.refcnt == old(post.refcnt) + 1
    ensures forall p :: Times(out + [post], p) == Times(out, p) + if p == post then 1 else 0
  {
    ret[count] := post;
    post.refcnt := post.refcnt + 1;
    assert DropLast(out + [post]) == out;
  }

  method IsWanted(p: Post, pred: Pred) returns (b: bool)
    ensures b == Wanted(p, pred)
  {
    b := p.listed;
    if b && pred.Some? {
      b := pred.value(DataOf(p));
    }
  }

  /** The second loop: takes a reference to every post it returns. */
  method CollectPosts(ps: seq<Post>, cur: nat, ret: array<Post?>, pred: Pred, nposts: nat)
    returns (count: nat, ghost out: seq<Post>)
    requires cur <= |ps| && nposts <= ret.Length
    modifies ret, ps`refcnt
    ensures out == Take(Filter(ps[cur..], old(WantedOf(ps, pred))), nposts)
    ensures count <= nposts && Filled(ret, count, out)
    ensures forall p :: p in ps ==> p.refcnt == old(p.refcnt) + Times(out, p)
  {
    ghost var wanted := WantedOf(ps, pred);
    out := [];
    var i, left := cur, nposts;
    count := 0;
    while i < |ps| && left != 0
      invariant cur <= i <= |ps| && count + left == nposts
      invariant out == Filter(ps[cur..i], wanted)
      invariant Filled(ret, count, out)
      invariant forall p :: p in ps ==> p.refcnt == old(p.refcnt) + Times(out, p)
    {
      FilterSnoc(ps, cur, i, wanted);
      var want := IsWanted(ps[i], pred);
      if want {
        ReturnPost(ret, count, ps[i], out);
        out := out + [ps[i]];
        left, count := left - 1, count + 1;
      }
      i := i + 1;
    }
    FilterSplit(ps, cur, i, wanted);
  }

  lemma FilterSnoc<T>(s: seq<T>, cur: nat, i: nat, keep: set<T>)
    requires cur <= i < |s|
    ensures Filter(s[cur..i + 1], keep) == Filter(s[cur..i], keep) + if s[i] in keep then [s[i]] else []
  {
    assert s[cur..i + 1] == s[cur..i] + [s[i]];
    FilterConcat(s[cur..i], [s[i]], keep);
  }

  lemma FilterSplit<T>(s: seq<T>, cur: nat, i: nat, keep: set<T>)
    requires cur <= i <= |s|
    ensures Filter(s[cur..], keep) == Filter(s[cur..i], keep) + Filter(s[i..], keep)
  {
    assert s[cur..] == s[cur..i] + s[i..];
    FilterConcat(s[cur..i], s[i..], keep);
  }

  lemma {:induction false} FilterTwice<T>(s: seq<T>, a: set<T>, b: set<T>)
    ensures Filter(Filter(s, a), b) == Filter(s, a * b)
  {
    if s != [] {
      FilterTwice(s[1..], a, b);
      assert ([s[0]] + Filter(s[1..], a))[1..] == Filter(s[1..], a);
    }
  }

  lemma {:induction false} FilterConcat<T>(a: seq<T>, b: seq<T>, keep: set<T>)
    ensures Filter(a + b, keep) == Filter(a, keep) + Filter(b, keep)
  {
    if a == [] {
      assert a + b == b;
    } else {
      assert (a + b)[1..] == a[1..] + b;
      FilterConcat(a[1..], b, keep);
    }
  }

  lemma {:induction false} TimesNone(ps: seq<Post>, p: Post)
    requires p !in ps
    ensures Times(ps, p) == 0
  {
    if ps != [] {
      TimesNone(DropLast(ps), p);
    }
  }

  /** Both loops over a listing. */
  method ListPosts(ps: seq<Post>, ret: array<Post?>, pred: Pred, skip: int, nposts: nat)
    returns (count: nat, ghost out: seq<Post>)
    requires nposts <= ret.Length
    modifies ret, ps`refcnt
    ensures count <= nposts && Filled(ret, count, out)
    ensures out == old(Select(ps, ListedOf(ps), WantedOf(ps, pred), skip, nposts))
    ensures forall p :: p in ps ==> p.refcnt == old(p.refcnt) + Times(out, p)
  {
    var cur := SkipPosts(ps, skip);
    FilterTwice(ps[cur..], ListedOf(ps), WantedOf(ps, pred));
    assert ListedOf(ps) * WantedOf(ps, pred) == WantedOf(ps, pred);
    count, out := CollectPosts(ps, cur, ret, pred, nposts);
  }

  /** The choice of the tree. */
  method ChooseTree(index: Index, tag: Option<string>) returns (view: seq<GlobalEntry>)
    ensures view == View(index, tag)
  {
    if tag.None? {
      return Globals(index.byTime);
    }
    var tree := Lookup(index.byTag, tag.value, SubName, Tags.CaseCmp);
    view := if tree.Missing? then [] else Globals(tree.elem.subindex);
  }

  /** index_get_posts */
  method IndexGetPosts(index: Index, ret: array<Post?>, tag: Option<string>, pred: Pred, skip: int, nposts: nat)
    returns (count: nat, ghost out: seq<Post>)
    requires index.Valid() && nposts <= ret.Length
    modifies ret, index.Posts()`refcnt
    ensures count <= nposts && Filled(ret, count, out)
    ensures out == old(Selection(index, tag, pred, skip, nposts))
    ensures forall p :: p in out ==> p in index.Posts()
    ensures forall p :: p in index.Posts() ==> p.refcnt == old(p.refcnt) + Times(out, p)
  {
    ViewIndexed(index, tag);
    var view := ChooseTree(index, tag);
    var ps := Newest(view);
    SelectSubset(ps, ListedOf(ps), WantedOf(ps, pred), skip, nposts);
    forall p | p !in ps
      ensures Times(Select(ps, ListedOf(ps), WantedOf(ps, pred), skip, nposts), p) == 0
    {
      TimesNone(Select(ps, ListedOf(ps), WantedOf(ps, pred), skip, nposts), p);
    }
    count, out := ListPosts(ps, ret, pred, skip, nposts);
  }
}
