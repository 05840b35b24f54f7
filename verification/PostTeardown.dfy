/**
 `free_all_posts` (post_index.c) takes the indices apart: first the tag index, then
 the by-time index, then the global one.  The set `freed` stands for the memory
 that has been given back; an object in it must be neither freed again nor used.
 The trees hand out their elements in an arbitrary order.
 */
module PostTeardown {
  import opened Basics
  import opened Posts
  import opened RbTree
  import opened Tags
  import opened PostIndex

  class Memory {
    ghost var freed: set<object>

    constructor ()
      ensures freed == {}
    {
      freed := {};
    }

    /** mem_cache_free: freeing twice is not allowed. */
    method Free(o: object)
      requires o !in freed
      modifies this
      ensures freed == old(freed) + {o}
    {
      freed := freed + {o};
    }
  }

  function Elems<T>(s: seq<T>): set<T>
  {
    set x | x in s
  }

  lemma RemovedElems<T>(s: seq<T>, i: nat)
    requires i < |s| && Distinct(s)
    ensures Elems(s) == Elems(RemoveAt(s, i)) + {s[i]} && s[i] !in Elems(RemoveAt(s, i))
  {
    RemovedElements(s, i);
  }

  /** post_putref */
  method PutRef(post: Post)
    requires post.refcnt > 0
    modifies post`refcnt
    ensures post.refcnt == old(post.refcnt) - 1
  {
    post.refcnt := post.refcnt - 1;
  }

  // ----- What is left while the tag index is taken apart ----------------------------------------

  /** The remaining subindices hold live tag entries that are on the xref lists of
      live global entries. */
  ghost predicate SubLeft(s: SubIndex, ids: seq<GlobalEntry>, freed: set<object>)
    reads s, ids
  {
    && s !in freed && Distinct(s.subindex)
    && forall e {:trigger EntryLeft(e, ids, freed)} :: e in s.subindex ==> EntryLeft(e, ids, freed)
  }

  ghost predicate EntryLeft(e: IndexEntry, ids: seq<GlobalEntry>, freed: set<object>)
    reads ids
  {
    e !in freed && e.kind.ET_TAG? && e.global in ids && e in e.global.byTag
  }

  /** Each xref list holds, once each, entries that remain in some subindex. */
  ghost predicate GlobalLeft(g: GlobalEntry, subs: seq<SubIndex>, freed: set<object>)
    reads g, subs
  {
    && g !in freed && Distinct(g.byTag)
    && forall e {:trigger XrefLeft(e, g, subs)} :: e in g.byTag ==> XrefLeft(e, g, subs)
  }

  ghost predicate XrefLeft(e: IndexEntry, g: GlobalEntry, subs: seq<SubIndex>)
    reads subs
  {
    e.global == g && exists s :: s in subs && e in s.subindex
  }

  /** No entry is in two subindices. */
  ghost predicate Apart(subs: seq<SubIndex>)
    reads subs
  {
    && Distinct(subs)
    && forall s, t {:trigger Disjoint(s, t)} :: s in subs && t in subs && s != t ==> Disjoint(s, t)
  }

  ghost predicate Disjoint(s: SubIndex, t: SubIndex)
    reads s, t
  {
    forall e :: e in s.subindex ==> e !in t.subindex
  }

  ghost predicate Draining(ids: seq<GlobalEntry>, subs: seq<SubIndex>, freed: set<object>)
    reads ids, subs
  {
    && Distinct(ids)
    && Apart(subs)
    && (forall s {:trigger SubLeft(s, ids, freed)} :: s in subs ==> SubLeft(s, ids, freed))
    && (forall g {:trigger GlobalLeft(g, subs, freed)} :: g in ids ==> GlobalLeft(g, subs, freed))
  }

  /** All the tag entries of the subindices. */
  ghost function TagEntries(subs: seq<SubIndex>): set<object>
    reads subs
  {
    set s, e | s in subs && e in s.subindex :: e
  }

  /** One turn of __free_index for a tag tree: the entry leaves the xref list of its
      global entry, which is still there, and is freed. */
  method FreeTagEntry(mem: Memory, ids: seq<GlobalEntry>, ghost subs: seq<SubIndex>, s: SubIndex, i: nat)
    requires Draining(ids, subs, mem.freed) && s in subs && i < |s.subindex|
    modifies mem, s, ids
    ensures Draining(ids, subs, mem.freed)
    ensures s.subindex == RemoveAt(old(s.subindex), i)
    ensures mem.freed + TagEntries(subs) == old(mem.freed + TagEntries(subs))
  {
    var cur := s.subindex[i];
    assert cur in s.subindex && cur in TagEntries(subs);
    assert SubLeft(s, ids, mem.freed) && EntryLeft(cur, ids, mem.freed);
    var g := cur.global;
    assert GlobalLeft(g, subs, mem.freed);
    RemovedElements(s.subindex, i);
    s.subindex := RemoveAt(s.subindex, i);
    assert g !in mem.freed;
    ListRemove(g, cur);
    mem.Free(cur);
    assert Apart(subs) by {
      forall a, b | a in subs && b in subs && a != b
        ensures Disjoint(a, b)
      {
        assert old(Disjoint(a, b));
      }
    }
    forall t | t in subs
      ensures SubLeft(t, ids, mem.freed)
    {
      assert old(SubLeft(t, ids, mem.freed));
      assert t != s ==> old(Disjoint(s, t));
      forall e | e in t.subindex
        ensures EntryLeft(e, ids, mem.freed)
      {
        assert old(EntryLeft(e, ids, mem.freed));
      }
    }
    forall o | o in TagEntries(subs)
      ensures o in old(TagEntries(subs)) && o != cur
    {
      var t, e :| t in subs && e in t.subindex && e == o;
      assert e in old(t.subindex) && (t != s ==> old(Disjoint(s, t)));
    }
    forall o | o in old(TagEntries(subs)) && o != cur
      ensures o in TagEntries(subs)
    {
      var t, e :| t in subs && e in old(t.subindex) && e == o;
      assert e in t.subindex;
    }
    forall h | h in ids
      ensures GlobalLeft(h, subs, mem.freed)
    {
      assert old(GlobalLeft(h, subs, mem.freed));
      forall e | e in h.byTag
        ensures XrefLeft(e, h, subs)
      {
        assert old(XrefLeft(e, h, subs));
        var t :| t in subs && e in old(t.subindex);
        assert e in t.subindex;
      }
    }
  }

  /** list_remove from the xref list. */
  method ListRemove(g: GlobalEntry, e: IndexEntry)
    requires e in g.byTag && Distinct(g.byTag)
    modifies g`byTag
    ensures Distinct(g.byTag)
    ensures forall x :: x in g.byTag <==> x in old(g.byTag) && x != e
  {
    var k :| 0 <= k < |g.byTag| && g.byTag[k] == e;
    RemovedElements(g.byTag, k);
    g.byTag := RemoveAt(g.byTag, k);
  }

  /** __free_index on a tag tree. */
  method FreeTagTree(mem: Memory, ids: seq<GlobalEntry>, ghost subs: seq<SubIndex>, s: SubIndex)
    requires Draining(ids, subs, mem.freed) && s in subs
    modifies mem, s, ids
    ensures Draining(ids, subs, mem.freed) && s.subindex == []
    ensures mem.freed + TagEntries(subs) == old(mem.freed + TagEntries(subs))
  {
    while s.subindex != []
      invariant Draining(ids, subs, mem.freed)
      invariant mem.freed + TagEntries(subs) == old(mem.freed + TagEntries(subs))
      decreases |s.subindex|
    {
      var i :| 0 <= i < |s.subindex|;
      FreeTagEntry(mem, ids, subs, s, i);
    }
  }

  /** An emptied subindex can go. */
  lemma DropSubIndex(ids: seq<GlobalEntry>, subs: seq<SubIndex>, i: nat, freed: set<object>)
    requires Draining(ids, subs, freed) && i < |subs| && subs[i].subindex == []
    ensures Draining(ids, RemoveAt(subs, i), freed + {subs[i]})
    ensures freed + {subs[i]} + TagEntries(RemoveAt(subs, i)) + Elems(RemoveAt(subs, i))
         == freed + TagEntries(subs) + Elems(subs)
  {
    var rest, more := RemoveAt(subs, i), freed + {subs[i]};
    RemovedElems(subs, i);
    RemovedElements(subs, i);
    forall a, b | a in rest && b in rest && a != b
      ensures Disjoint(a, b)
    {
      assert Disjoint(a, b);
    }
    forall t | t in rest
      ensures SubLeft(t, ids, more)
    {
      assert SubLeft(t, ids, freed);
      forall e | e in t.subindex
        ensures EntryLeft(e, ids, more)
      {
        assert EntryLeft(e, ids, freed);
      }
    }
    forall g | g in ids
      ensures GlobalLeft(g, rest, more)
    {
      assert GlobalLeft(g, subs, freed);
      forall e | e in g.byTag
        ensures XrefLeft(e, g, rest)
      {
        assert XrefLeft(e, g, subs);
      }
    }
    forall o | o in TagEntries(subs)
      ensures o in TagEntries(rest)
    {
      var t, e :| t in subs && e in t.subindex && e == o;
      assert t in rest;
    }
    assert TagEntries(rest) == TagEntries(subs);
  }

  /** The emptied subindex leaves the tag index and is freed. */
  method FreeEmptied(mem: Memory, index: Index, i: nat)
    requires Draining(index.byId, index.byTag, mem.freed)
    requires i < |index.byTag| && index.byTag[i].subindex == []
    modifies mem, index`byTag
    ensures index.byTag == RemoveAt(old(index.byTag), i)
    ensures Draining(index.byId, index.byTag, mem.freed)
    ensures mem.freed + TagEntries(index.byTag) + Elems(index.byTag)
         == old(mem.freed + TagEntries(index.byTag) + Elems(index.byTag))
  {
    var cur := index.byTag[i];
    assert SubLeft(cur, index.byId, mem.freed);
    DropSubIndex(index.byId, index.byTag, i, mem.freed);
    hide Draining, TagEntries, Elems;
    index.byTag := RemoveAt(index.byTag, i);
    mem.Free(cur);
  }

  /** One turn of __free_tag_index. */
  method FreeSubIndex(mem: Memory, index: Index, i: nat)
    requires Draining(index.byId, index.byTag, mem.freed) && i < |index.byTag|
    modifies mem, index`byTag, index.byTag[i], index.byId
    ensures index.byTag == RemoveAt(old(index.byTag), i)
    ensures Draining(index.byId, index.byTag, mem.freed)
    ensures mem.freed + TagEntries(index.byTag) + Elems(index.byTag)
         == old(mem.freed + TagEntries(index.byTag) + Elems(index.byTag))
  {
    hide Draining, TagEntries, Elems;
    FreeTagTree(mem, index.byId, index.byTag, index.byTag[i]);
    FreeEmptied(mem, index, i);
  }

  /** __free_tag_index */
  method FreeTagIndex(mem: Memory, index: Index)
    requires Draining(index.byId, index.byTag, mem.freed)
    modifies mem, index`byTag, index.byTag, index.byId
    ensures index.byTag == [] && Draining(index.byId, [], mem.freed)
    ensures mem.freed == old(mem.freed + TagEntries(index.byTag) + Elems(index.byTag))
  {
    while index.byTag != []
      invariant Draining(index.byId, index.byTag, mem.freed)
      invariant forall s :: s in index.byTag ==> s in old(index.byTag)
      invariant mem.freed + TagEntries(index.byTag) + Elems(index.byTag)
             == old(mem.freed + TagEntries(index.byTag) + Elems(index.byTag))
      decreases |index.byTag|
    {
      var i :| 0 <= i < |index.byTag|;
      assert index.byTag[i] in old(index.byTag);
      FreeSubIndex(mem, index, i);
    }
  }

  /** __free_index on the by-time index, whose entries are on no xref list. */
  method FreeTimeIndex(mem: Memory, index: Index)
    requires Distinct(index.byTime) && Elems(index.byTime) !! mem.freed
    requires forall e :: e in index.byTime ==> e.kind.ET_TIME?
    modifies mem, index`byTime
    ensures index.byTime == []
    ensures mem.freed == old(mem.freed + Elems(index.byTime))
  {
    while index.byTime != []
      invariant Distinct(index.byTime) && Elems(index.byTime) !! mem.freed
      invariant mem.freed + Elems(index.byTime) == old(mem.freed + Elems(index.byTime))
      decreases |index.byTime|
    {
      var i :| 0 <= i < |index.byTime|;
      var cur := index.byTime[i];
      RemovedElements(index.byTime, i);
      RemovedElems(index.byTime, i);
      index.byTime := RemoveAt(index.byTime, i);
      assert cur !in Elems(index.byTime);
      mem.Free(cur);
    }
  }

  /** No two global entries share a post. */
  ghost predicate PostsDistinct(ids: seq<GlobalEntry>)
  {
    forall i, j :: 0 <= i < j < |ids| ==> ids[i].post != ids[j].post
  }

  /** __free_global_index: the list_destroy of each xref list finds it empty. */
  method FreeGlobalIndex(mem: Memory, index: Index)
    requires Distinct(index.byId) && PostsDistinct(index.byId) && Elems(index.byId) !! mem.freed
    requires forall g :: g in index.byId ==> g.byTag == [] && g.post.refcnt > 0
    modifies mem, index`byId, index.Posts()`refcnt
    ensures index.byId == []
    ensures mem.freed == old(mem.freed + Elems(index.byId))
    ensures forall p :: p in old(index.Posts()) ==> p.refcnt == old(p.refcnt) - 1
  {
    ghost var all := index.byId;
    while index.byId != []
      invariant Distinct(index.byId) && PostsDistinct(index.byId) && Elems(index.byId) !! mem.freed
      invariant index.Posts() <= old(index.Posts())
      invariant forall g :: g in index.byId ==> g.byTag == [] && g.post.refcnt > 0
      invariant mem.freed + Elems(index.byId) == old(mem.freed + Elems(index.byId))
      invariant forall p :: p in old(index.Posts()) ==>
                  p.refcnt == old(p.refcnt) - if p in index.Posts() then 0 else 1
      decreases |index.byId|
    {
      var i :| 0 <= i < |index.byId|;
      var cur := index.byId[i];
      DropGlobal(index.byId, i);
      PutRef(cur.post);
      assert cur.byTag == [];
      index.byId := RemoveAt(index.byId, i);
      mem.Free(cur);
    }
  }

  lemma DropGlobal(ids: seq<GlobalEntry>, i: nat)
    requires i < |ids| && Distinct(ids) && PostsDistinct(ids)
    ensures Distinct(RemoveAt(ids, i)) && PostsDistinct(RemoveAt(ids, i))
    ensures forall g :: g in RemoveAt(ids, i) <==> g in ids && g != ids[i]
    ensures forall g :: g in RemoveAt(ids, i) ==> g.post != ids[i].post
    ensures Elems(ids) == Elems(RemoveAt(ids, i)) + {ids[i]}
  {
    RemovedElements(ids, i);
    RemovedElems(ids, i);
    var rest := RemoveAt(ids, i);
    assert forall k :: 0 <= k < |rest| ==> rest[k] == ids[if k < i then k else k + 1];
  }

  // ----- All of it ------------------------------------------------------------------------------

  /** Everything an index owns. */
  ghost function Owned(index: Index): set<object>
    reads index, index.byTag
  {
    Elems(index.byId) + Elems(index.byTime) + Elems(index.byTag) + TagEntries(index.byTag)
  }

  /** An entry sits in the subindex of its own tag only. */
  lemma SubsApart(index: Index)
    requires index.Valid()
    ensures Apart(index.byTag)
  {
    var subs := index.byTag;
    CaseCmpOrder();
    SortedDistinct(subs, SubName, CaseCmp);
    forall s, t | s in subs && t in subs && s != t
      ensures Disjoint(s, t)
    {
      assert SubOk(s, index.byId) && SubOk(t, index.byId);
      SubFoldsDiffer(subs, s, t);
      forall e | e in s.subindex
        ensures e !in t.subindex
      {
        assert TagEntryOk(e, s.name, index.byId);
        assert e in t.subindex ==> TagEntryOk(e, t.name, index.byId);
      }
    }
  }

  lemma SubFoldsDiffer(subs: seq<SubIndex>, s: SubIndex, t: SubIndex)
    requires Sorted(subs, SubName, CaseCmp) && s in subs && t in subs && s != t
    ensures Fold(s.name) != Fold(t.name)
  {
    var i :| 0 <= i < |subs| && subs[i] == s;
    var j :| 0 <= j < |subs| && subs[j] == t;
    assert if i < j then Before(subs, i, j, SubName, CaseCmp) else Before(subs, j, i, SubName, CaseCmp);
    CaseCmpEqual(s.name, t.name);
    CaseCmpEqual(t.name, s.name);
  }

  /** A subindex holds each entry once. */
  lemma SubStarts(s: SubIndex, ids: seq<GlobalEntry>, freed: set<object>)
    requires SubOk(s, ids) && s !in freed && forall e :: e in s.subindex ==> e !in freed
    ensures SubLeft(s, ids, freed)
  {
    TimeCmpOrder();
    SortedDistinct(s.subindex, EntryKey, TimeCmp);
    forall e | e in s.subindex
      ensures EntryLeft(e, ids, freed)
    {
      assert TagEntryOk(e, s.name, ids);
    }
  }

  /** An xref list holds each entry once, as the entries bear the names of different tags. */
  lemma GlobalStarts(g: GlobalEntry, subs: seq<SubIndex>, freed: set<object>)
    requires GlobalOk(g, subs) && g !in freed
    ensures GlobalLeft(g, subs, freed)
  {
    forall i, j | 0 <= i < j < |g.byTag|
      ensures g.byTag[i] != g.byTag[j]
    {
      TreeFoldsDistinct(g.tags, i, j);
      assert XrefOk(g.byTag[i], g, g.tags[i], subs) && XrefOk(g.byTag[j], g, g.tags[j], subs);
    }
    forall e | e in g.byTag
      ensures XrefLeft(e, g, subs)
    {
      var i :| 0 <= i < |g.byTag| && g.byTag[i] == e;
      assert XrefOk(g.byTag[i], g, g.tags[i], subs);
    }
  }

  /** A valid index is ready to be taken apart. */
  lemma ValidDrains(index: Index, freed: set<object>)
    requires index.Valid() && Owned(index) !! freed
    ensures Draining(index.byId, index.byTag, freed)
  {
    IdCmpOrder();
    SortedDistinct(index.byId, IdOf, IdCmp);
    SubsApart(index);
    forall s | s in index.byTag
      ensures SubLeft(s, index.byId, freed)
    {
      assert SubOk(s, index.byId) && s in Owned(index);
      forall e | e in s.subindex
        ensures e !in freed
      {
        assert e in TagEntries(index.byTag) && e in Owned(index);
      }
      SubStarts(s, index.byId, freed);
    }
    forall g | g in index.byId
      ensures GlobalLeft(g, index.byTag, freed)
    {
      assert GlobalOk(g, index.byTag) && g in Owned(index);
      GlobalStarts(g, index.byTag, freed);
    }
  }

  /** No two entries are for the same post, and the by-time entries are no tag entries. */
  lemma ValidSeparates(index: Index)
    requires index.Valid()
    ensures PostsDistinct(index.byId)
    ensures Distinct(index.byTime) && Elems(index.byTime) !! TagEntries(index.byTag)
  {
    TimeCmpOrder();
    SortedDistinct(index.byTime, EntryKey, TimeCmp);
    var ids := index.byId;
    forall i, j | 0 <= i < j < |ids|
      ensures ids[i].post != ids[j].post
    {
      assert GlobalOk(ids[i], index.byTag) && GlobalOk(ids[j], index.byTag);
      assert Before(ids, i, j, IdOf, IdCmp);
    }
    forall s, e | s in index.byTag && e in s.subindex
      ensures e !in index.byTime
    {
      assert SubOk(s, index.byId) && TagEntryOk(e, s.name, index.byId);
    }
  }

  /** With no subindex left the xref lists are empty: list_destroy finds nothing. */
  lemma AllDrained(ids: seq<GlobalEntry>, freed: set<object>)
    requires Draining(ids, [], freed)
    ensures forall g :: g in ids ==> g.byTag == [] && g !in freed
  {
    forall g | g in ids
      ensures g.byTag == [] && g !in freed
    {
      assert GlobalLeft(g, [], freed);
      assert g.byTag != [] ==> XrefLeft(g.byTag[0], g, []);
    }
  }

  /** free_all_posts: frees everything the index owns, each object once, and drops
      one reference to every indexed post. */
  method FreeAllPosts(mem: Memory, index: Index)
    requires index.Valid() && Owned(index) !! mem.freed
    requires forall p :: p in index.Posts() ==> p.refcnt > 0
    modifies mem, index, index.byTag, index.byId, index.Posts()`refcnt
    ensures index.byId == [] && index.byTime == [] && index.byTag == []
    ensures mem.freed == old(mem.freed + Owned(index))
    ensures forall p :: p in old(index.Posts()) ==> p.refcnt == old(p.refcnt) - 1
  {
    ValidDrains(index, mem.freed);
    ValidSeparates(index);
    ghost var posts := index.Posts();
    FreeTagIndex(mem, index);
    AllDrained(index.byId, mem.freed);
    forall e | e in index.byTime
      ensures e !in mem.freed
    {
      assert e in old(Owned(index)) && e in Elems(index.byTime);
    }
    FreeTimeIndex(mem, index);
    forall g | g in index.byId
      ensures g !in mem.freed
    {
      assert g in old(Owned(index)) && g in Elems(index.byId);
    }
    FreeGlobalIndex(mem, index);
  }
}
