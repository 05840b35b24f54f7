/**
 What listings show: exactly the listed posts that bear the tag, in any spelling, the
 newest first.  A post counts with the time it had when it was inserted.
 */
module PostOrder {
  import opened Basics
  import opened Posts
  import opened RbTree
  import opened PostIndex
  import opened PostListing
  import opened Pagination
  import Tags

  // ----- Order ------------------------------------------------------------------------------

  /** `p` was published after `q`; posts of the same time go by their ids. */
  ghost predicate Newer(index: Index, p: Post, q: Post)
    reads index
  {
    exists g, h :: g in index.byId && h in index.byId && g.post == p && h.post == q
                   && (g.time > h.time || (g.time == h.time && p.id > q.id))
  }

  ghost predicate NewestFirst(index: Index, ps: seq<Post>)
    reads index
  {
    forall i, j :: 0 <= i < j < |ps| ==> Newer(index, ps[i], ps[j])
  }

  /** Each tree is in order of time and id. */
  lemma ViewOrder(index: Index, tag: Option<string>, i: nat, j: nat)
    requires index.Valid() && i < j < |View(index, tag)|
    ensures var v := View(index, tag);
            v[i].time < v[j].time || (v[i].time == v[j].time && v[i].post.id < v[j].post.id)
  {
    var v := View(index, tag);
    ViewSorted(index, tag);
    ViewIndexed(index, tag);
    assert Before(v, i, j, GlobalKey, TimeCmp);
    assert v[i] in v && v[j] in v;
    assert GlobalOk(v[i], index.byTag) && GlobalOk(v[j], index.byTag);
  }

  lemma NewestOrder(index: Index, tag: Option<string>)
    requires index.Valid()
    ensures NewestFirst(index, Newest(View(index, tag)))
  {
    var v := View(index, tag);
    var ps := Newest(v);
    ViewIndexed(index, tag);
    forall i, j | 0 <= i < j < |ps|
      ensures Newer(index, ps[i], ps[j])
    {
      var g, h := v[|v| - 1 - i], v[|v| - 1 - j];
      ViewOrder(index, tag, |v| - 1 - j, |v| - 1 - i);
      assert g in v && h in v;
    }
  }

  /** A part of a sequence in its order. */
  lemma {:induction false} FilterOrder(index: Index, ps: seq<Post>, keep: set<Post>)
    requires NewestFirst(index, ps)
    ensures NewestFirst(index, Filter(ps, keep))
  {
    hide Newer;
    if ps != [] {
      var rest := ps[1..];
      assert forall i :: 0 <= i < |rest| ==> rest[i] == ps[i + 1];
      FilterOrder(index, rest, keep);
      FilterSubset(rest, keep);
      var out := Filter(ps, keep);
      if ps[0] in keep {
        var more := Filter(rest, keep);
        forall i, j | 0 <= i < j < |out|
          ensures Newer(index, out[i], out[j])
        {
          assert out[j] == more[j - 1] && more[j - 1] in more;
          assert more[j - 1] in rest;
          var k :| 0 <= k < |rest| && rest[k] == more[j - 1];
          assert Newer(index, ps[0], ps[k + 1]);
          assert i > 0 ==> out[i] == more[i - 1];
        }
      }
    }
  }

  lemma PartOrder(index: Index, ps: seq<Post>, n: nat)
    requires NewestFirst(index, ps)
    ensures NewestFirst(index, Take(ps, n)) && NewestFirst(index, Drop(ps, n))
  {
    hide Newer;
  }

  /** The theorem: whatever a request selects, it gets the newest first. */
  lemma SelectionOrder(index: Index, tag: Option<string>, pred: Pred, skip: int, n: nat)
    requires index.Valid()
    ensures NewestFirst(index, Selection(index, tag, pred, skip, n))
  {
    hide Newer, NewestFirst, View;
    var ps := Newest(View(index, tag));
    var listed, wanted := ListedOf(ps), WantedOf(ps, pred);
    NewestOrder(index, tag);
    FilterOrder(index, ps, listed);
    if skip >= 0 {
      PartOrder(index, Filter(ps, listed), skip);
      FilterOrder(index, Drop(Filter(ps, listed), skip), wanted);
      PartOrder(index, Filter(Drop(Filter(ps, listed), skip), wanted), n);
    } else {
      NothingInOrder(index);
    }
  }

  lemma NothingInOrder(index: Index)
    ensures NewestFirst(index, [])
  {}

  lemma ListingOrder(index: Index, tag: Option<string>)
    requires index.Valid()
    ensures NewestFirst(index, Listing(index, tag))
  {
    NewestOrder(index, tag);
    FilterOrder(index, Newest(View(index, tag)), ListedOf(Newest(View(index, tag))));
  }

  /** So nothing on a page is older than what is on a later one. */
  lemma PagesOrder(index: Index, tag: Option<string>, n: nat, page: nat, later: nat, p: Post, q: Post)
    requires index.Valid() && page < later && page * n < 0x8000_0000 && later * n < 0x8000_0000
    requires p in PageOf(index, tag, page, n) && q in PageOf(index, tag, later, n)
    ensures Newer(index, p, q)
  {
    hide Newer, Listing, PageOf, Slice;
    var list := Listing(index, tag);
    PageIsSlice(index, tag, page, n);
    PageIsSlice(index, tag, later, n);
    LaterOffset(page, later, n);
    ListingOrder(index, tag);
    var i := InSlice(list, page, n, p);
    var j := InSlice(list, later, n, q);
    assert Newer(index, list[i], list[j]);
  }

  /** Where a post of a page is in the listing. */
  lemma InSlice<T>(list: seq<T>, page: nat, n: nat, x: T) returns (i: nat)
    requires x in Slice(list, page, n)
    ensures page * n <= i < page * n + n && i < |list| && list[i] == x
  {
    hide Slice;
    SliceElements(list, page, n);
    var k :| 0 <= k < |Slice(list, page, n)| && Slice(list, page, n)[k] == x;
    i := page * n + k;
  }

  // ----- Contents ---------------------------------------------------------------------------

  /** The post is indexed, and under this tag if there is one. */
  ghost predicate Indexed(index: Index, tag: Option<string>, p: Post)
    reads index, index.byId
  {
    exists g :: g in index.byId && g.post == p && (tag.Some? ==> Tags.HasTag(g.tags, tag.value))
  }

  lemma TimeViewShows(index: Index, g: GlobalEntry)
    requires index.Valid()
    ensures g in index.TimeView() <==> g in index.byId
  {
    if g in index.byId {
      assert InTimes(index.byTime, g);
      var e :| e in index.byTime && e.global == g;
      var i :| 0 <= i < |index.byTime| && index.byTime[i] == e;
      assert index.TimeView()[i] == g;
    }
    ViewIndexed(index, None);
  }

  lemma TagViewShows(index: Index, tag: string, g: GlobalEntry)
    requires index.Valid()
    ensures g in index.TagView(tag) <==> g in index.byId && Tags.HasTag(g.tags, tag)
  {
    Tags.FoldsMean();
    if g in index.TagView(tag) {
      ViewIndexed(index, Some(tag));
      assert g in View(index, Some(tag));
      ShownHasTag(index, tag, g);
    }
    if g in index.byId && Tags.HasTag(g.tags, tag) {
      var i :| 0 <= i < |g.tags| && Tags.SameTag(g.tags[i], tag);
      assert GlobalOk(g, index.byTag);
      assert XrefOk(g.byTag[i], g, g.tags[i], index.byTag);
      var s :| s in index.byTag && g.byTag[i] in s.subindex;
      assert SubOk(s, index.byId);
      assert TagEntryOk(g.byTag[i], s.name, index.byId);
      SubIsFound(index, s, tag);
      var k :| 0 <= k < |s.subindex| && s.subindex[k] == g.byTag[i];
      assert index.TagView(tag)[k] == g;
    }
  }

  lemma SubIsFound(index: Index, s: SubIndex, tag: string)
    requires index.Valid() && s in index.byTag && Tags.SameTag(s.name, tag)
    ensures Lookup(index.byTag, tag, SubName, Tags.CaseCmp) == Present(s)
  {
    var i :| 0 <= i < |index.byTag| && index.byTag[i] == s;
    Tags.CaseCmpMeaning(s.name, tag);
    Tags.CaseCmpOrder();
    LookupUnique(index.byTag, i, tag, SubName, Tags.CaseCmp);
  }

  lemma ShownHasTag(index: Index, tag: string, g: GlobalEntry)
    requires index.Valid() && g in index.TagView(tag)
    ensures Tags.HasTag(g.tags, tag)
  {
    Tags.FoldsMean();
    var s := Lookup(index.byTag, tag, SubName, Tags.CaseCmp).elem;
    LookupFold(index.byTag, s, tag, tag);
    var k :| 0 <= k < |s.subindex| && s.subindex[k].global == g;
    var e := s.subindex[k];
    assert SubOk(s, index.byId);
    assert TagEntryOk(e, s.name, index.byId);
    assert GlobalOk(g, index.byTag);
    var i :| 0 <= i < |g.byTag| && g.byTag[i] == e;
    assert XrefOk(g.byTag[i], g, g.tags[i], index.byTag);
  }

  /** The theorem: a listing shows exactly the listed posts with the tag. */
  lemma ListingShows(index: Index, tag: Option<string>, p: Post)
    requires index.Valid()
    ensures p in Listing(index, tag) <==> Indexed(index, tag, p) && p.listed
  {
    hide Indexed, View;
    var ps := Newest(View(index, tag));
    FilterMembers(ps, ListedOf(ps), p);
    ViewShows(index, tag, p);
  }

  lemma ViewShows(index: Index, tag: Option<string>, p: Post)
    requires index.Valid()
    ensures p in Newest(View(index, tag)) <==> Indexed(index, tag, p)
  {
    hide Tags.HasTag, Index.Valid, Index.TagView, Index.TimeView;
    var v := View(index, tag);
    var ps := Newest(v);
    forall g ensures g in v <==> g in index.byId && (tag.Some? ==> Tags.HasTag(g.tags, tag.value)) {
      if tag.None? {
        TimeViewShows(index, g);
      } else {
        TagViewShows(index, tag.value, g);
      }
    }
    if p in ps {
      var i :| 0 <= i < |ps| && ps[i] == p;
      assert v[|v| - 1 - i] in v;
    }
    if Indexed(index, tag, p) {
      var g :| g in index.byId && g.post == p && (tag.Some? ==> Tags.HasTag(g.tags, tag.value));
      var i :| 0 <= i < |v| && v[i] == g;
      assert ps[|v| - 1 - i] == p;
    }
  }

  lemma {:induction false} FilterMembers<T>(s: seq<T>, keep: set<T>, x: T)
    ensures x in Filter(s, keep) <==> x in s && x in keep
  {
    if s != [] {
      FilterMembers(s[1..], keep, x);
      assert s == [s[0]] + s[1..];
    }
  }

  /** A request with a predicate gets posts of the listing that satisfy it. */
  lemma SelectionShows(index: Index, tag: Option<string>, pred: Pred, skip: int, n: nat, p: Post)
    requires index.Valid() && p in Selection(index, tag, pred, skip, n)
    ensures Indexed(index, tag, p) && p.listed && (pred.Some? ==> pred.value(DataOf(p)))
    ensures |Selection(index, tag, pred, skip, n)| <= n
  {
    var ps := Newest(View(index, tag));
    var rest := Drop(Filter(ps, ListedOf(ps)), skip);
    FilterMembers(rest, WantedOf(ps, pred), p);
    FilterMembers(ps, ListedOf(ps), p);
    ListingShows(index, tag, p);
    assert p in Filter(rest, WantedOf(ps, pred));
    assert p in rest && p in Filter(ps, ListedOf(ps));
  }
}
