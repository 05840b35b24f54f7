/**
 The post indices (post_index.c).  Entries are heap objects that point at each
 other, as in the source: the global index owns the list of a post's tag entries,
 the by-time index and the per-tag subindices hold entries that point back at the
 global entry and take their keys from it.
 */
module PostIndex {
  import opened Basics
  import opened Posts
  import opened RbTree
  import opened Tags

  datatype EntryType = ET_TAG | ET_TIME

  /** struct post_global_index_entry */
  class GlobalEntry {
    const id: nat
    const post: Post
    /** The post's time when it was inserted; refreshing the post does not change it. */
    const time: nat
    var byTag: seq<IndexEntry>
    /** The tags for which `byTag` holds an entry. */
    ghost var tags: seq<string>

    constructor (post: Post)
      ensures this.id == post.id && this.post == post && time == post.time
      ensures byTag == [] && tags == []
    {
      this.id, this.post, time := post.id, post, post.time;
      byTag, tags := [], [];
    }
  }

  /** struct post_index_entry; the by-time index leaves the name empty. */
  class IndexEntry {
    const global: GlobalEntry
    const name: string
    const kind: EntryType

    constructor (global: GlobalEntry, name: string, kind: EntryType)
      ensures this.global == global && this.name == name && this.kind == kind
    {
      this.global, this.name, this.kind := global, name, kind;
    }
  }

  /** struct post_subindex */
  class SubIndex {
    const name: string
    var subindex: seq<IndexEntry>

    constructor (name: string)
      ensures this.name == name && subindex == []
    {
      this.name := name;
      subindex := [];
    }
  }

  // ----- Keys and comparators -------------------------------------------------------------

  datatype TimeKey = TimeKey(time: nat, id: nat)

  function IdOf(g: GlobalEntry): nat
  {
    g.id
  }

  function GlobalKey(g: GlobalEntry): TimeKey
  {
    TimeKey(g.time, g.id)
  }

  function EntryKey(e: IndexEntry): TimeKey
  {
    GlobalKey(e.global)
  }

  function SubName(s: SubIndex): string
  {
    s.name
  }

  /** post_global_index_cmp */
  function IdCmp(a: nat, b: nat): int
  {
    if a < b then -1 else if a > b then 1 else 0
  }

  /** post_index_cmp */
  function TimeCmp(a: TimeKey, b: TimeKey): int
  {
    if a.time < b.time then -1
    else if a.time > b.time then 1
    else if a.id < b.id then -1
    else if a.id > b.id then 1
    else 0
  }

  lemma IdCmpOrder()
    ensures TotalOrder(IdCmp)
  {
    assert forall a, b :: Flips(IdCmp, a, b);
    assert forall a, b, c :: Chains(IdCmp, a, b, c);
  }

  lemma TimeCmpOrder()
    ensures TotalOrder(TimeCmp)
  {
    assert forall a, b :: Flips(TimeCmp, a, b);
    assert forall a, b, c :: Chains(TimeCmp, a, b, c);
  }

  /** The global entries behind the entries of a tree. */
  function Globals(tree: seq<IndexEntry>): (gs: seq<GlobalEntry>)
    ensures |gs| == |tree| && forall i :: 0 <= i < |gs| ==> gs[i] == tree[i].global
  {
    seq(|tree|, i requires 0 <= i < |tree| => tree[i].global)
  }

  lemma {:induction false} PositionGlobals(tree: seq<IndexEntry>, k: TimeKey)
    ensures Position(Globals(tree), k, GlobalKey, TimeCmp) == Position(tree, k, EntryKey, TimeCmp)
  {
    if tree != [] {
      assert Globals(tree)[1..] == Globals(tree[1..]);
      PositionGlobals(tree[1..], k);
    }
  }

  lemma GlobalsInsertAt(tree: seq<IndexEntry>, p: nat, e: IndexEntry)
    requires p <= |tree|
    ensures Globals(InsertAt(tree, p, e)) == InsertAt(Globals(tree), p, e.global)
  {
    var a, b := Globals(InsertAt(tree, p, e)), InsertAt(Globals(tree), p, e.global);
    forall i | 0 <= i < |a|
      ensures a[i] == b[i]
    {
      assert i < p || i == p || InsertAt(tree, p, e)[i] == tree[i - 1];
    }
  }

  /** Inserting an entry inserts its global entry into the view. */
  lemma InsertGlobals(tree: seq<IndexEntry>, e: IndexEntry)
    ensures Globals(Insert(tree, e, EntryKey, TimeCmp))
         == Insert(Globals(tree), e.global, GlobalKey, TimeCmp)
  {
    PositionGlobals(tree, EntryKey(e));
    GlobalsInsertAt(tree, Position(tree, EntryKey(e), EntryKey, TimeCmp), e);
  }

  /** Insertion into the trees of entries. */
  lemma EntryInserted(tree: seq<IndexEntry>, e: IndexEntry)
    requires Sorted(tree, EntryKey, TimeCmp) && !Has(tree, EntryKey(e), EntryKey, TimeCmp)
    ensures Sorted(Insert(tree, e, EntryKey, TimeCmp), EntryKey, TimeCmp)
    ensures forall x :: x in Insert(tree, e, EntryKey, TimeCmp) <==> x in tree || x == e
  {
    TimeCmpOrder();
    InsertKeepsSorted(tree, e, EntryKey, TimeCmp);
    InsertedElements(tree, e, EntryKey, TimeCmp);
  }

  /** Insertion into the global index. */
  lemma GlobalInserted(ids: seq<GlobalEntry>, g: GlobalEntry)
    requires Sorted(ids, IdOf, IdCmp) && !Has(ids, g.id, IdOf, IdCmp)
    ensures Sorted(Insert(ids, g, IdOf, IdCmp), IdOf, IdCmp)
    ensures forall x :: x in Insert(ids, g, IdOf, IdCmp) <==> x in ids || x == g
  {
    IdCmpOrder();
    InsertKeepsSorted(ids, g, IdOf, IdCmp);
    InsertedElements(ids, g, IdOf, IdCmp);
  }

  /** Insertion into the tree of subindices. */
  lemma SubInserted(subs: seq<SubIndex>, s: SubIndex)
    requires Sorted(subs, SubName, CaseCmp) && !Has(subs, s.name, SubName, CaseCmp)
    ensures Sorted(Insert(subs, s, SubName, CaseCmp), SubName, CaseCmp)
    ensures forall x :: x in Insert(subs, s, SubName, CaseCmp) <==> x in subs || x == s
  {
    CaseCmpOrder();
    InsertKeepsSorted(subs, s, SubName, CaseCmp);
    InsertedElements(subs, s, SubName, CaseCmp);
  }

  // ----- Invariants of the parts -----------------------------------------------------------------

  /** The by-time index is sorted and in bijection with the global index. */
  ghost predicate TimeOk(times: seq<IndexEntry>, ids: seq<GlobalEntry>)
  {
    && Sorted(times, EntryKey, TimeCmp)
    && (forall e :: e in times ==> e.kind.ET_TIME? && e.global in ids)
    && (forall g {:trigger InTimes(times, g)} :: g in ids ==> InTimes(times, g))
  }

  ghost predicate InTimes(times: seq<IndexEntry>, g: GlobalEntry)
  {
    exists e :: e in times && e.global == g
  }

  predicate NonEmpty(s: SubIndex)
    reads s
  {
    s.subindex != []
  }

  /** A subindex is sorted and holds tag entries of one tag only. */
  ghost predicate SubOk(s: SubIndex, ids: seq<GlobalEntry>)
    reads s, ids
  {
    && Sorted(s.subindex, EntryKey, TimeCmp)
    && forall e {:trigger TagEntryOk(e, s.name, ids)} :: e in s.subindex ==> TagEntryOk(e, s.name, ids)
  }

  ghost predicate TagEntryOk(e: IndexEntry, name: string, ids: seq<GlobalEntry>)
    reads ids
  {
    e.kind.ET_TAG? && Fold(e.name) == Fold(name) && e.global in ids && e in e.global.byTag
  }

  /** The xref list holds one entry per tag, each in a subindex. */
  ghost predicate GlobalOk(g: GlobalEntry, subs: seq<SubIndex>)
    reads g, subs
  {
    && g.id == g.post.id
    && TagTree(g.tags)
    && |g.byTag| == |g.tags|
    && forall i {:trigger XrefOk(g.byTag[i], g, g.tags[i], subs)} ::
         0 <= i < |g.byTag| ==> XrefOk(g.byTag[i], g, g.tags[i], subs)
  }

  ghost predicate XrefOk(e: IndexEntry, g: GlobalEntry, tag: string, subs: seq<SubIndex>)
    reads subs
  {
    e.global == g && e.kind.ET_TAG? && e.name == tag && exists s :: s in subs && e in s.subindex
  }

  /** ASSERT3P(rb_insert(&index_by_time, by_time), ==, NULL) holds for a new id. */
  lemma NoTimeCollision(times: seq<IndexEntry>, ids: seq<GlobalEntry>, g: GlobalEntry)
    requires TimeOk(times, ids) && !Has(ids, g.id, IdOf, IdCmp)
    ensures !Has(times, GlobalKey(g), EntryKey, TimeCmp)
  {
    forall i | 0 <= i < |times|
      ensures TimeCmp(EntryKey(times[i]), GlobalKey(g)) != 0
    {
      assert times[i].global in ids;
      var j :| 0 <= j < |ids| && ids[j] == times[i].global;
      assert IdCmp(IdOf(ids[j]), g.id) != 0;
    }
  }

  lemma TimeOkInserted(times: seq<IndexEntry>, ids: seq<GlobalEntry>, e: IndexEntry)
    requires TimeOk(times, ids) && e.kind.ET_TIME?
    requires Sorted(ids, IdOf, IdCmp) && !Has(ids, e.global.id, IdOf, IdCmp)
    ensures TimeOk(Insert(times, e, EntryKey, TimeCmp), Insert(ids, e.global, IdOf, IdCmp))
  {
    NoTimeCollision(times, ids, e.global);
    EntryInserted(times, e);
    GlobalInserted(ids, e.global);
    var times', ids' := Insert(times, e, EntryKey, TimeCmp), Insert(ids, e.global, IdOf, IdCmp);
    forall g | g in ids'
      ensures InTimes(times', g)
    {
      if g in ids {
        assert InTimes(times, g);
        var t :| t in times && t.global == g;
        assert t in times';
      } else {
        assert e in times';
      }
    }
  }

  lemma SubOkGrows(s: SubIndex, ids: seq<GlobalEntry>, more: seq<GlobalEntry>)
    requires SubOk(s, ids) && forall g :: g in ids ==> g in more
    ensures SubOk(s, more)
  {
    forall e | e in s.subindex
      ensures TagEntryOk(e, s.name, more)
    {
      assert TagEntryOk(e, s.name, ids);
    }
  }

  /** Entries with the same key belong to the same post. */
  lemma SameKeySameGlobal(ids: seq<GlobalEntry>, a: GlobalEntry, b: GlobalEntry)
    requires Sorted(ids, IdOf, IdCmp) && a in ids && b in ids && TimeCmp(GlobalKey(a), GlobalKey(b)) == 0
    ensures a == b
  {
    var i :| 0 <= i < |ids| && ids[i] == a;
    var j :| 0 <= j < |ids| && ids[j] == b;
    assert i < j ==> Before(ids, i, j, IdOf, IdCmp);
    assert j < i ==> Before(ids, j, i, IdOf, IdCmp);
  }

  lemma GlobalOkGrows(g: GlobalEntry, subs: seq<SubIndex>, more: seq<SubIndex>)
    requires GlobalOk(g, subs) && forall s :: s in subs ==> s in more
    ensures GlobalOk(g, more)
  {
    forall i | 0 <= i < |g.byTag|
      ensures XrefOk(g.byTag[i], g, g.tags[i], more)
    {
      assert XrefOk(g.byTag[i], g, g.tags[i], subs);
    }
  }

  /** ASSERT3P(rb_insert(&sub->subindex, tag_entry), ==, NULL) holds, since a post's
      tags are distinct under the order of the tag index. */
  lemma NoTagCollision(ids: seq<GlobalEntry>, subs: seq<SubIndex>, s: SubIndex, g: GlobalEntry, tag: string)
    requires Sorted(ids, IdOf, IdCmp) && SubOk(s, ids) && GlobalOk(g, subs) && g in ids
    requires Fold(s.name) == Fold(tag) && TagTree(g.tags + [tag])
    ensures !Has(s.subindex, GlobalKey(g), EntryKey, TimeCmp)
  {
    forall i | 0 <= i < |s.subindex|
      ensures TimeCmp(EntryKey(s.subindex[i]), GlobalKey(g)) != 0
    {
      var e := s.subindex[i];
      assert TagEntryOk(e, s.name, ids);
      if TimeCmp(EntryKey(e), GlobalKey(g)) == 0 {
        SameKeySameGlobal(ids, e.global, g);
        var k :| 0 <= k < |g.byTag| && g.byTag[k] == e;
        assert XrefOk(g.byTag[k], g, g.tags[k], subs);
        TreeFoldsDistinct(g.tags + [tag], k, |g.tags|);
      }
    }
  }

  /** Tags that differ only in case find the same subindex. */
  lemma LookupFold(subs: seq<SubIndex>, s: SubIndex, tag: string, other: string)
    requires Sorted(subs, SubName, CaseCmp) && Lookup(subs, tag, SubName, CaseCmp) == Present(s)
    ensures s in subs && Fold(s.name) == Fold(tag) && SameTag(s.name, tag)
    ensures Lookup(subs, other, SubName, CaseCmp) == Present(s) <==> SameTag(tag, other)
    ensures SameTag(tag, other) <==> Fold(tag) == Fold(other)
  {
    FoldsMean();
    CaseCmpEqual(s.name, tag);
    CaseCmpEqual(s.name, other);
    if Fold(tag) == Fold(other) {
      CaseCmpOrder();
      LookupUnique(subs, Position(subs, tag, SubName, CaseCmp), other, SubName, CaseCmp);
    }
  }

  lemma LookupFoldMissing(subs: seq<SubIndex>, tag: string, other: string)
    requires Sorted(subs, SubName, CaseCmp) && Lookup(subs, tag, SubName, CaseCmp) == Missing
    requires SameTag(tag, other)
    ensures Lookup(subs, other, SubName, CaseCmp) == Missing
  {
    FoldsMean();
    if Lookup(subs, other, SubName, CaseCmp) != Missing {
      LookupFold(subs, Lookup(subs, other, SubName, CaseCmp).elem, other, tag);
    }
  }

  /** What a tag finds once `tag` finds `sub`. */
  function LookupWith(subs: seq<SubIndex>, sub: SubIndex, tag: string, t: string): Found<SubIndex>
  {
    if SameTag(tag, t) then Present(sub) else Lookup(subs, t, SubName, CaseCmp)
  }

  /** A listing before and after a post that may belong to it is inserted. */
  function ViewWith(view: seq<GlobalEntry>, member: bool, g: GlobalEntry): seq<GlobalEntry>
  {
    if member then Insert(view, g, GlobalKey, TimeCmp) else view
  }

  lemma PrefixTree(tags: seq<string>, i: nat)
    requires TagTree(tags) && i < |tags|
    ensures TagTree(tags[..i] + [tags[i]])
  {
    assert tags[..i] + [tags[i]] == tags[..i + 1];
    forall a, b {:trigger Before(tags[..i + 1], a, b, Itself, CaseCmp)} | 0 <= a < b < i + 1
      ensures Before(tags[..i + 1], a, b, Itself, CaseCmp)
    {
      assert Before(tags, a, b, Itself, CaseCmp);
    }
  }

  /** Adding the tag at index i to those before it. */
  lemma PrefixFold(tags: seq<string>, i: nat, f: string)
    requires TagTree(tags) && i < |tags|
    ensures HasFold(tags[..i + 1], f) <==> HasFold(tags[..i], f) || f == Fold(tags[i])
    ensures !(HasFold(tags[..i], f) && f == Fold(tags[i]))
  {
    HasFoldSnoc(tags[..i + 1], f);
    assert DropLast(tags[..i + 1]) == tags[..i];
    if HasFold(tags[..i], f) && f == Fold(tags[i]) {
      var k :| 0 <= k < i && Fold(tags[..i][k]) == f;
      TreeFoldsDistinct(tags, k, i);
    }
  }

  lemma PrefixTag(tags: seq<string>, i: nat, tag: string)
    requires TagTree(tags) && i < |tags|
    ensures HasTag(tags[..i + 1], tag) <==> HasTag(tags[..i], tag) || SameTag(tag, tags[i])
    ensures !(HasTag(tags[..i], tag) && SameTag(tag, tags[i]))
  {
    PrefixFold(tags, i, Fold(tag));
    HasTagFold(tags[..i], tag);
    HasTagFold(tags[..i + 1], tag);
    FoldMeaning(tag, tags[i]);
  }

  // ----- The index -----------------------------------------------------------------------------

  class Index {
    var byId: seq<GlobalEntry>
    var byTime: seq<IndexEntry>
    var byTag: seq<SubIndex>

    /** init_post_index */
    constructor ()
      ensures Valid() && byId == [] && byTime == [] && byTag == []
    {
      byId, byTime, byTag := [], [], [];
    }

    ghost predicate Valid()
      reads this, byId, byTag
    {
      ValidExcept(null)
    }

    /** No subindex is empty, except perhaps one that is about to get its first entry. */
    ghost predicate ValidExcept(empty: SubIndex?)
      reads this, byId, byTag
    {
      && (forall s {:trigger NonEmpty(s)} :: s in byTag && s != empty ==> NonEmpty(s))
      && Sorted(byId, IdOf, IdCmp)
      && Sorted(byTag, SubName, CaseCmp)
      && TimeOk(byTime, byId)
      && (forall s {:trigger SubOk(s, byId)} :: s in byTag ==> SubOk(s, byId))
      && (forall g {:trigger GlobalOk(g, byTag)} :: g in byId ==> GlobalOk(g, byTag))
    }

    predicate HasId(id: nat)
      reads this
    {
      Has(byId, id, IdOf, IdCmp)
    }

    /** The global entries of the posts with a tag, oldest first: the subindex
        __get_subindex finds. */
    ghost function TagView(tag: string): seq<GlobalEntry>
      reads `byTag, byTag
    {
      match Lookup(byTag, tag, SubName, CaseCmp)
      case Missing => []
      case Present(s) => Globals(s.subindex)
    }

    ghost function TimeView(): seq<GlobalEntry>
      reads `byTime
    {
      Globals(byTime)
    }

    ghost function Subs(): set<SubIndex>
      reads `byTag
    {
      set s | s in byTag
    }

    /** The indexed posts. */
    ghost function Posts(): set<Post>
      reads `byId
    {
      set g | g in byId :: g.post
    }

    /** The first half of index_insert_post: the global and the by-time index. */
    method InsertById(global: GlobalEntry, entry: IndexEntry)
      requires Valid() && !HasId(global.id)
      requires global.id == global.post.id && global.byTag == [] && global.tags == []
      requires entry.global == global && entry.kind.ET_TIME?
      modifies `byId, `byTime
      ensures Valid()
      ensures byId == Insert(old(byId), global, IdOf, IdCmp)
      ensures byTime == Insert(old(byTime), entry, EntryKey, TimeCmp)
    {
      GlobalInserted(byId, global);
      TimeOkInserted(byTime, byId, entry);
      var ids := Insert(byId, global, IdOf, IdCmp);
      forall s | s in byTag
        ensures SubOk(s, ids)
      {
        assert SubOk(s, byId);
        SubOkGrows(s, byId, ids);
      }
      forall g | g in ids
        ensures GlobalOk(g, byTag)
      {
        assert g in byId ==> GlobalOk(g, byTag);
      }
      byId := ids;
      byTime := Insert(byTime, entry, EntryKey, TimeCmp);
    }

    /** The first half of the loop body in __insert_post_tags: afterwards the tag
        finds `sub`, which is new only if the tag found nothing before. */
    method GetSubIndex(tag: string) returns (sub: SubIndex)
      requires Valid()
      modifies `byTag
      ensures ValidExcept(sub) && sub in byTag && SameTag(sub.name, tag)
      ensures forall s :: s in byTag ==> s in old(byTag) || (s == sub && fresh(s))
      ensures forall t :: Lookup(byTag, t, SubName, CaseCmp) == LookupWith(old(byTag), sub, tag, t)
      ensures match old(Lookup(byTag, tag, SubName, CaseCmp))
              case Present(s) => s == sub && byTag == old(byTag)
              case Missing => fresh(sub) && sub.subindex == []
    {
      CaseCmpOrder();
      FoldsMean();
      FoundAtPosition(byTag, tag, SubName, CaseCmp);
      match Lookup(byTag, tag, SubName, CaseCmp)
      case Present(s) =>
        sub := s;
        LookupFold(byTag, s, tag, tag);
        forall t ensures Lookup(byTag, t, SubName, CaseCmp) == LookupWith(byTag, sub, tag, t) {
          LookupFold(byTag, s, tag, t);
        }
        WeakenValid(sub);
      case Missing =>
        sub := new SubIndex(tag);
        forall t ensures Lookup(Insert(byTag, sub, SubName, CaseCmp), t, SubName, CaseCmp)
                      == LookupWith(byTag, sub, tag, t) {
          CaseCmpEqual(tag, t);
          LookupInserted(byTag, sub, t, SubName, CaseCmp);
        }
        AddSubIndex(sub);
    }

    lemma WeakenValid(sub: SubIndex)
      requires Valid()
      ensures ValidExcept(sub)
    {}

    /** rb_insert_here of a new, empty subindex. */
    method AddSubIndex(sub: SubIndex)
      requires Valid() && sub.subindex == [] && !Has(byTag, sub.name, SubName, CaseCmp)
      modifies `byTag
      ensures ValidExcept(sub) && byTag == Insert(old(byTag), sub, SubName, CaseCmp)
      ensures forall s :: s in byTag <==> s in old(byTag) || s == sub
    {
      SubInserted(byTag, sub);
      var subs := Insert(byTag, sub, SubName, CaseCmp);
      forall s | s in subs
        ensures SubOk(s, byId) && (s != sub ==> NonEmpty(s))
      {
        assert s in byTag ==> SubOk(s, byId) && NonEmpty(s);
      }
      forall g | g in byId
        ensures GlobalOk(g, subs)
      {
        assert GlobalOk(g, byTag);
        GlobalOkGrows(g, byTag, subs);
      }
      byTag := subs;
    }

    /** The second half of the loop body: an entry in the subindex and in the xref
        list.  The subindex has no entry with this key. */
    method AddTagEntry(global: GlobalEntry, sub: SubIndex, tag: string)
      requires ValidExcept(sub) && global in byId && sub in byTag
      requires Fold(sub.name) == Fold(tag) && TagTree(global.tags + [tag])
      modifies global, sub
      ensures Valid() && global.tags == old(global.tags) + [tag]
      ensures Globals(sub.subindex) == Insert(old(Globals(sub.subindex)), global, GlobalKey, TimeCmp)
    {
      assert SubOk(sub, byId) && GlobalOk(global, byTag);
      NoTagCollision(byId, byTag, sub, global, tag);
      var entry := new IndexEntry(global, tag, ET_TAG);
      EntryInserted(sub.subindex, entry);
      InsertGlobals(sub.subindex, entry);
      sub.subindex := Insert(sub.subindex, entry, EntryKey, TimeCmp);
      global.byTag := global.byTag + [entry];
      global.tags := global.tags + [tag];
      assert forall s {:trigger SubOk(s, byId)} :: s in byTag ==> NonEmpty(s) && SubOk(s, byId) by {
        forall s | s in byTag
          ensures NonEmpty(s) && SubOk(s, byId)
        {
          assert old(SubOk(s, byId)) && (s != sub ==> old(NonEmpty(s)));
          assert s == sub ==> entry in s.subindex;
          forall e | e in s.subindex
            ensures TagEntryOk(e, s.name, byId)
          {
            assert e != entry ==> old(TagEntryOk(e, s.name, byId));
          }
        }
      }
      assert forall g {:trigger GlobalOk(g, byTag)} :: g in byId ==> GlobalOk(g, byTag) by {
        forall g | g in byId
          ensures GlobalOk(g, byTag)
        {
          assert old(GlobalOk(g, byTag));
          forall i | 0 <= i < |g.byTag|
            ensures XrefOk(g.byTag[i], g, g.tags[i], byTag)
          {
            if g.byTag[i] != entry {
              assert old(XrefOk(g.byTag[i], g, g.tags[i], byTag));
              var s :| s in byTag && g.byTag[i] in old(s.subindex);
              assert g.byTag[i] in s.subindex;
            } else {
              assert entry in sub.subindex;
            }
          }
        }
      }
      forall s | s in byTag ensures NonEmpty(s) {
        assert SubOk(s, byId);
      }
    }

    /** One tag of __insert_post_tags. */
    method InsertTag(global: GlobalEntry, tag: string)
      requires Valid() && global in byId && TagTree(global.tags + [tag])
      modifies this, Subs(), global
      ensures Valid() && global.tags == old(global.tags) + [tag]
      ensures byId == old(byId) && byTime == old(byTime)
      ensures fresh(Subs() - old(Subs()))
      ensures forall t :: TagView(t) == ViewWith(old(TagView(t)), SameTag(t, tag), global)
    {
      hide TagTree, Fold, Insert, SameTag;
      FoldsMean();
      var sub := GetSubIndex(tag);
      label added:
      AddTagEntry(global, sub, tag);
      forall t
        ensures TagView(t) == ViewWith(old(TagView(t)), SameTag(t, tag), global)
      {
        if SameTag(t, tag) {
          var was := old(Lookup(byTag, t, SubName, CaseCmp));
          if old(Lookup(byTag, tag, SubName, CaseCmp)).Present? {
            LookupFold(old(byTag), sub, tag, t);
          } else {
            LookupFoldMissing(old(byTag), tag, t);
          }
          assert old@added(Globals(sub.subindex)) == old(TagView(t));
        } else {
          var now := Lookup(byTag, t, SubName, CaseCmp);
          if now == Present(sub) {
            LookupFold(byTag, sub, t, tag);
          }
        }
      }
    }

    /** All the listings by tag. */
    ghost function Views(): (v: imap<string, seq<GlobalEntry>>)
      reads `byTag, byTag
      ensures forall t {:trigger v[t]} :: t in v && v[t] == TagView(t)
    {
      imap t: string :: TagView(t)
    }

    /** The listings are `v` with `g` inserted under each of the tags. */
    ghost predicate ViewsWith(v: imap<string, seq<GlobalEntry>>, tags: seq<string>, g: GlobalEntry)
      reads `byTag, byTag
    {
      forall t {:trigger TagView(t)} ::
        t in v && TagView(t) == ViewWith(v[t], HasTag(tags, t), g)
    }

    /** One turn of the loop in __insert_post_tags. */
    method InsertTagAt(global: GlobalEntry, taglist: seq<string>, i: nat, ghost v: imap<string, seq<GlobalEntry>>)
      requires Valid() && global in byId && TagTree(taglist) && i < |taglist|
      requires global.tags == taglist[..i] && ViewsWith(v, taglist[..i], global)
      modifies this, Subs(), global
      ensures Valid() && byId == old(byId) && byTime == old(byTime)
      ensures fresh(Subs() - old(Subs()))
      ensures global.tags == taglist[..i + 1] && ViewsWith(v, taglist[..i + 1], global)
    {
      PrefixTree(taglist, i);
      assert taglist[..i + 1] == taglist[..i] + [taglist[i]];
      label before:
      InsertTag(global, taglist[i]);
      forall t
        ensures t in v && TagView(t) == ViewWith(v[t], HasTag(taglist[..i + 1], t), global)
      {
        PrefixTag(taglist, i, t);
        assert old@before(TagView(t)) == ViewWith(v[t], HasTag(taglist[..i], t), global);
      }
    }

    /** __insert_post_tags */
    method InsertPostTags(global: GlobalEntry, taglist: seq<string>)
      requires Valid() && global in byId && global.tags == [] && TagTree(taglist)
      modifies this, Subs(), global
      ensures Valid() && byId == old(byId) && byTime == old(byTime)
      ensures fresh(Subs() - old(Subs()))
      ensures global.tags == taglist && ViewsWith(old(Views()), taglist, global)
    {
      for i := 0 to |taglist|
        invariant Valid() && byId == old(byId) && byTime == old(byTime)
        invariant fresh(Subs() - old(Subs()))
        invariant global.tags == taglist[..i] && ViewsWith(old(Views()), taglist[..i], global)
      {
        InsertTagAt(global, taglist, i, old(Views()));
      }
      assert taglist[..|taglist|] == taglist;
    }

    /** What a successful insertion does: the new global entry joins the global
        index, the by-time listing and the listings of exactly the post's tags. */
    twostate predicate Added(post: Post, new global: GlobalEntry)
      reads this, byTag, global, post
    {
      && fresh(global) && global.post == post && global.id == post.id
      && global.time == post.time && global.tags == post.tags
      && post.refcnt == old(post.refcnt) + 1
      && byId == Insert(old(byId), global, IdOf, IdCmp)
      && TimeView() == Insert(old(TimeView()), global, GlobalKey, TimeCmp)
      && ViewsWith(old(Views()), post.tags, global)
    }

    /** index_insert_post.  A post whose id is taken leaves everything as it was. */
    method InsertPost(post: Post) returns (ok: bool, ghost global: GlobalEntry)
      requires Valid() && TagTree(post.tags)
      modifies this, Subs(), post`refcnt
      ensures Valid() && fresh(Subs() - old(Subs()))
      ensures ok == !old(HasId(post.id))
      ensures ok ==> Added(post, global)
      ensures !ok ==> byId == old(byId) && byTime == old(byTime) && byTag == old(byTag)
                      && post.refcnt == old(post.refcnt) && forall s :: s in byTag ==> s.subindex == old(s.subindex)
    {
      hide Valid, Views, TagTree, ViewsWith, Insert, HasId;
      var entry := new GlobalEntry(post);
      global := entry;
      post.refcnt := post.refcnt + 1;
      var byTimeEntry := new IndexEntry(entry, "", ET_TIME);
      ok := !HasId(entry.id);
      assert Valid() && Views() == old(Views()) && Subs() == old(Subs());
      if ok {
        InsertEverywhere(entry, byTimeEntry);
      } else {
        post.refcnt := post.refcnt - 1;
      }
    }

    /** The locked part of index_insert_post for a new id. */
    method InsertEverywhere(global: GlobalEntry, entry: IndexEntry)
      requires Valid() && !HasId(global.id)
      requires global.id == global.post.id && global.byTag == [] && global.tags == []
      requires TagTree(global.post.tags)
      requires entry.global == global && entry.kind.ET_TIME?
      modifies this, Subs(), global
      ensures Valid() && fresh(Subs() - old(Subs()))
      ensures global.tags == global.post.tags
      ensures byId == Insert(old(byId), global, IdOf, IdCmp)
      ensures TimeView() == Insert(old(TimeView()), global, GlobalKey, TimeCmp)
      ensures ViewsWith(old(Views()), global.post.tags, global)
    {
      GlobalInserted(byId, global);
      InsertGlobals(byTime, entry);
      InsertById(global, entry);
      assert Views() == old(Views());
      InsertPostTags(global, global.post.tags);
    }
  }
}
