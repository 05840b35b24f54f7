/**
 Pages of a listing.  A request for page k with n posts per page skips k * n posts
 and asks for n (tag.c, index.c); it reports more posts exactly when it got n.
 */
module Pagination {
  import opened Basics
  import opened Posts
  import opened PostIndex
  import opened PostListing
  import Tags
  import opened RbTree

  /** The conversion of the unsigned product `page * posts_per_page` to int. */
  function ToInt(x: nat): int
  {
    var y := x % 0x1_0000_0000;
    if y < 0x8000_0000 then y else y - 0x1_0000_0000
  }

  /** The posts shown on a page. */
  ghost function PageOf(index: Index, tag: Option<string>, page: nat, n: nat): seq<Post>
    reads index, index.byTag, Newest(View(index, tag))
  {
    Selection(index, tag, None, ToInt(page * n), n)
  }

  /** The listed posts of a request, newest first. */
  ghost function Listing(index: Index, tag: Option<string>): seq<Post>
    reads index, index.byTag, Newest(View(index, tag))
  {
    var ps := Newest(View(index, tag));
    Filter(ps, ListedOf(ps))
  }

  /** A slice of a listing, the way the request asks for it. */
  function Slice<T>(list: seq<T>, page: nat, n: nat): seq<T>
  {
    Take(Drop(list, page * n), n)
  }

  lemma {:induction false} FilterAll<T>(s: seq<T>, keep: set<T>)
    requires forall x :: x in s ==> x in keep
    ensures Filter(s, keep) == s
  {
    if s != [] {
      FilterAll(s[1..], keep);
    }
  }

  lemma SmallIsKept(x: nat)
    requires x < 0x8000_0000
    ensures ToInt(x) == x
  {}

  /** Without a predicate the second filter keeps everything. */
  lemma SelectAll<T>(s: seq<T>, listed: set<T>, wanted: set<T>, skip: nat, n: nat)
    requires forall x :: x in s && x in listed ==> x in wanted
    ensures Select(s, listed, wanted, skip, n) == Take(Drop(Filter(s, listed), skip), n)
  {
    var rest := Drop(Filter(s, listed), skip);
    FilterSubset(s, listed);
    assert forall x :: x in rest ==> x in Filter(s, listed);
    FilterAll(rest, wanted);
  }

  /** The int that is congruent to the product. */
  lemma ProductWraps(x: nat)
    ensures -0x8000_0000 <= ToInt(x) < 0x8000_0000 && (x - ToInt(x)) % 0x1_0000_0000 == 0
  {
    var y := x % 0x1_0000_0000;
    assert x - y == x / 0x1_0000_0000 * 0x1_0000_0000;
    assert (x - ToInt(x)) == (x / 0x1_0000_0000 + if y < 0x8000_0000 then 0 else 1) * 0x1_0000_0000;
  }

  /** While the product does not overflow, a page is a slice of the listing. */
  lemma PageIsSlice(index: Index, tag: Option<string>, page: nat, n: nat)
    requires page * n < 0x8000_0000
    ensures PageOf(index, tag, page, n) == Slice(Listing(index, tag), page, n)
  {
    var ps := Newest(View(index, tag));
    SmallIsKept(page * n);
    SelectAll(ps, ListedOf(ps), WantedOf(ps, None), page * n, n);
  }

  /** A listing shows no post twice. */
  lemma ListingDistinct(index: Index, tag: Option<string>)
    requires index.Valid()
    ensures Distinct(Listing(index, tag))
  {
    var view := View(index, tag);
    var ps := Newest(view);
    ViewIndexed(index, tag);
    ViewSorted(index, tag);
    forall i, j | 0 <= i < j < |ps|
      ensures ps[i] != ps[j]
    {
      var a, b := view[|view| - 1 - i], view[|view| - 1 - j];
      assert a in view && b in view;
      assert GlobalOk(a, index.byTag) && GlobalOk(b, index.byTag);
      if ps[i] == ps[j] {
        assert IdCmp(IdOf(a), IdOf(b)) == 0;
        SameIdSameGlobal(index.byId, a, b);
        TimeCmpOrder();
        SortedDistinct(view, GlobalKey, TimeCmp);
      }
    }
    FilterDistinct(ps, ListedOf(ps));
  }

  lemma SameIdSameGlobal(ids: seq<GlobalEntry>, a: GlobalEntry, b: GlobalEntry)
    requires Sorted(ids, IdOf, IdCmp) && a in ids && b in ids && a.id == b.id
    ensures a == b
  {
    var i :| 0 <= i < |ids| && ids[i] == a;
    var j :| 0 <= j < |ids| && ids[j] == b;
    assert i < j ==> Before(ids, i, j, IdOf, IdCmp);
    assert j < i ==> Before(ids, j, i, IdOf, IdCmp);
  }

  /** Every listing is sorted by time and id. */
  lemma ViewSorted(index: Index, tag: Option<string>)
    requires index.Valid()
    ensures Sorted(View(index, tag), GlobalKey, TimeCmp)
  {
    if tag.None? {
      GlobalsSorted(index.byTime);
    } else {
      var found := Lookup(index.byTag, tag.value, SubName, Tags.CaseCmp);
      if found.Present? {
        assert SubOk(found.elem, index.byId);
        GlobalsSorted(found.elem.subindex);
      }
    }
  }

  lemma GlobalsSorted(tree: seq<IndexEntry>)
    requires Sorted(tree, EntryKey, TimeCmp)
    ensures Sorted(Globals(tree), GlobalKey, TimeCmp)
  {
    forall i, j {:trigger Before(Globals(tree), i, j, GlobalKey, TimeCmp)} | 0 <= i < j < |tree|
      ensures Before(Globals(tree), i, j, GlobalKey, TimeCmp)
    {
      assert Before(tree, i, j, EntryKey, TimeCmp);
    }
  }

  lemma {:induction false} FilterDistinct<T>(s: seq<T>, keep: set<T>)
    requires Distinct(s)
    ensures Distinct(Filter(s, keep))
  {
    if s != [] {
      FilterDistinct(s[1..], keep);
      FilterSubset(s[1..], keep);
      assert forall i :: 0 <= i < |s| - 1 ==> s[1..][i] == s[i + 1];
    }
  }

  // ----- Pages partition a listing -------------------------------------------------------------

  /** Pages 0 to k - 1 of a request, one after the other. */
  ghost function Pages(index: Index, tag: Option<string>, k: nat, n: nat): seq<Post>
    reads index, index.byTag, Newest(View(index, tag))
  {
    if k == 0 then [] else Pages(index, tag, k - 1, n) + PageOf(index, tag, k - 1, n)
  }

  /** The pages put together are the beginning of the listing. */
  lemma {:induction false} PagesArePrefix(index: Index, tag: Option<string>, k: nat, n: nat)
    requires k > 0 ==> (k - 1) * n < 0x8000_0000
    ensures Pages(index, tag, k, n) == Take(Listing(index, tag), k * n)
  {
    hide PageOf, Listing;
    if k > 0 {
      var before := (k - 1) * n;
      OneMore(k - 1, n);
      if k > 1 {
        OneMore(k - 2, n);
      }
      PagesArePrefix(index, tag, k - 1, n);
      PageIsSlice(index, tag, k - 1, n);
      TakeThenSlice(Listing(index, tag), before, n);
    }
  }

  lemma OneMore(k: nat, n: nat)
    ensures (k + 1) * n == k * n + n
  {}

  lemma TakeThenSlice<T>(list: seq<T>, a: nat, n: nat)
    ensures Take(list, a) + Take(Drop(list, a), n) == Take(list, a + n)
  {
    if a <= |list| {
      assert a + n <= |list| ==> list[a..][..n] == list[a..a + n];
    }
  }

  /** Every post of the listing is on exactly one page, at a known place. */
  lemma OnExactlyOnePage<T>(list: seq<T>, i: nat, n: nat, page: nat)
    requires Distinct(list) && i < |list| && n > 0
    ensures list[i] in Slice(list, page, n) <==> page == i / n
    ensures page == i / n ==> i % n < |Slice(list, page, n)| && Slice(list, page, n)[i % n] == list[i]
  {
    var from := page * n;
    var slice := Slice(list, page, n);
    SliceElements(list, page, n);
    hide Slice;
    DivMod(i, n);
    if page == i / n {
      assert slice[i % n] == list[from + i % n];
    } else if list[i] in slice {
      var j :| 0 <= j < |slice| && slice[j] == list[i];
      assert list[from + j] == list[i];
      assert from + j == i;
      DivUnique(page, j, n);
    }
  }

  lemma SliceElements<T>(list: seq<T>, page: nat, n: nat)
    ensures |Slice(list, page, n)| <= n
    ensures |Slice(list, page, n)| == if page * n >= |list| then 0
                                      else if page * n + n <= |list| then n else |list| - page * n
    ensures forall j :: 0 <= j < |Slice(list, page, n)| ==>
              page * n + j < |list| && Slice(list, page, n)[j] == list[page * n + j]
  {}

  lemma DivMod(i: nat, n: nat)
    requires n > 0
    ensures i / n * n + i % n == i && i % n < n
  {}

  lemma MulAtLeast(d: int, n: nat)
    ensures d >= 1 ==> d * n >= n
    ensures d <= -1 ==> d * n + n <= 0
  {}

  lemma DivUnique(q: nat, r: nat, n: nat)
    requires r < n
    ensures (q * n + r) / n == q
  {
    DivMod(q * n + r, n);
    var d := (q * n + r) / n - q;
    assert d * n == r - (q * n + r) % n;
    MulAtLeast(d, n);
  }

  lemma LaterOffset(page: nat, later: nat, n: nat)
    requires page < later
    ensures later * n >= page * n + n
  {
    assert later * n == page * n + (later - page) * n;
    MulAtLeast(later - page, n);
  }

  /** A short page means that all later pages are empty. */
  lemma ShortPageIsLast<T>(list: seq<T>, page: nat, n: nat, later: nat)
    requires |Slice(list, page, n)| < n && page < later
    ensures Slice(list, later, n) == []
  {
    SliceElements(list, page, n);
    SliceElements(list, later, n);
    LaterOffset(page, later, n);
  }

  lemma FullSlice<T>(list: seq<T>, page: nat, n: nat)
    requires n > 0
    ensures |Slice(list, page, n)| == n && Slice(list, page + 1, n) == [] <==> |list| == (page + 1) * n
  {
    SliceElements(list, page, n);
    SliceElements(list, page + 1, n);
    OneMore(page, n);
  }

  /** The theorem for the requests themselves: for a fixed index, while the products
      fit an int, each listed post is on exactly one page. */
  lemma PagesPartitionListing(index: Index, tag: Option<string>, n: nat, i: nat, page: nat)
    requires index.Valid() && n > 0 && page * n < 0x8000_0000
    requires i < |Listing(index, tag)|
    ensures Listing(index, tag)[i] in PageOf(index, tag, page, n) <==> page == i / n
  {
    ListingDistinct(index, tag);
    PageIsSlice(index, tag, page, n);
    OnExactlyOnePage(Listing(index, tag), i, n, page);
  }

  /** And after a page that reports no more posts there are only empty ones. */
  lemma NoMorePosts(index: Index, tag: Option<string>, n: nat, page: nat, later: nat)
    requires page < later && page * n < 0x8000_0000 && later * n < 0x8000_0000
    requires |PageOf(index, tag, page, n)| < n
    ensures PageOf(index, tag, later, n) == []
  {
    PageIsSlice(index, tag, page, n);
    PageIsSlice(index, tag, later, n);
    ShortPageIsLast(Listing(index, tag), page, n, later);
  }

  /** `moreposts`, as the requests compute it. */
  ghost predicate MorePosts(index: Index, tag: Option<string>, page: nat, n: nat)
    reads index, index.byTag, Newest(View(index, tag))
  {
    |PageOf(index, tag, page, n)| == n
  }

  /** The converse of NoMorePosts fails: more posts are also reported for a full last
      page, and exactly then the next page turns out empty. */
  lemma FullLastPage(index: Index, tag: Option<string>, page: nat, n: nat)
    requires n > 0 && (page + 1) * n < 0x8000_0000
    ensures MorePosts(index, tag, page, n) && PageOf(index, tag, page + 1, n) == []
       <==> |Listing(index, tag)| == (page + 1) * n
  {
    OneMore(page, n);
    PageIsSlice(index, tag, page, n);
    PageIsSlice(index, tag, page + 1, n);
    FullSlice(Listing(index, tag), page, n);
  }

  /** That happens: an index with a single post and pages for one post. */
  method OnePostTwoPages(post: Post) returns (index: Index)
    requires post.listed && Tags.TagTree(post.tags)
    modifies post`refcnt
    ensures index.Valid() && Listing(index, None) == [post]
    ensures MorePosts(index, None, 0, 1) && PageOf(index, None, 1, 1) == []
  {
    index := new Index();
    ghost var global;
    var ok;
    ok, global := index.InsertPost(post);
    var view := View(index, None);
    assert view == [global];
    assert DropLast(view) == [];
    assert Newest(view) == [post];
    FilterAll(Newest(view), ListedOf(Newest(view)));
    FullLastPage(index, None, 0, 1);
  }
}
