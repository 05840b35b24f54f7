/** Tags are compared without regard to case: tag_cmp (post.c) and post_tag_cmp
    (post_index.c) both call strcasecmp. */
module Tags {
  import opened Basics
  import opened RbTree

  function Lower(c: char): char
  {
    if 'A' <= c <= 'Z' then (c as int + 32) as char else c
  }

  function Fold(s: string): string
  {
    seq(|s|, i requires 0 <= i < |s| => Lower(s[i]))
  }

  function LexCmp(a: string, b: string): int
  {
    if a == [] then
      if b == [] then 0 else -1
    else if b == [] then 1
    else if a[0] < b[0] then -1
    else if a[0] > b[0] then 1
    else LexCmp(a[1..], b[1..])
  }

  /** strcasecmp in the C locale. */
  function CaseCmp(a: string, b: string): int
  {
    LexCmp(Fold(a), Fold(b))
  }

  lemma {:induction false} LexCmpEqual(a: string, b: string)
    ensures LexCmp(a, b) == 0 <==> a == b
  {
    if a != [] && b != [] {
      LexCmpEqual(a[1..], b[1..]);
      assert a == [a[0]] + a[1..] && b == [b[0]] + b[1..];
    }
  }

  lemma {:induction false} LexCmpFlip(a: string, b: string)
    ensures LexCmp(a, b) == -LexCmp(b, a)
  {
    if a != [] && b != [] {
      LexCmpFlip(a[1..], b[1..]);
    }
  }

  lemma {:induction false} LexCmpTrans(a: string, b: string, c: string)
    requires LexCmp(a, b) < 0 && LexCmp(b, c) < 0
    ensures LexCmp(a, c) < 0
  {
    if a != [] && b != [] && c != [] && a[0] == b[0] == c[0] {
      LexCmpTrans(a[1..], b[1..], c[1..]);
    }
  }

  /** Tags compare equal exactly when they differ at most in case. */
  lemma CaseCmpEqual(a: string, b: string)
    ensures CaseCmp(a, b) == 0 <==> Fold(a) == Fold(b)
  {
    LexCmpEqual(Fold(a), Fold(b));
  }

  lemma CaseCmpOrder()
    ensures TotalOrder(CaseCmp)
  {
    forall a, b ensures Flips(CaseCmp, a, b) {
      LexCmpFlip(Fold(a), Fold(b));
    }
    forall a, b, c ensures Chains(CaseCmp, a, b, c) {
      CaseCmpEqual(a, b);
      CaseCmpEqual(b, c);
      if CaseCmp(a, b) < 0 && CaseCmp(b, c) < 0 {
        LexCmpTrans(Fold(a), Fold(b), Fold(c));
      }
    }
  }

  // ----- Case ----------------------------------------------------------------------------

  /** The letters A to Z are the same as a to z, 32 above them. */
  predicate SameLetter(x: char, y: char)
  {
    || x == y
    || ('A' <= x <= 'Z' && y as int == x as int + 32)
    || ('A' <= y <= 'Z' && x as int == y as int + 32)
  }

  /** Equal up to the case of letters. */
  predicate SameTag(a: string, b: string)
  {
    |a| == |b| && forall i :: 0 <= i < |a| ==> SameLetter(a[i], b[i])
  }

  lemma LowerMeaning(x: char, y: char)
    ensures Lower(x) == Lower(y) <==> SameLetter(x, y)
  {}

  lemma FoldMeaning(a: string, b: string)
    ensures Fold(a) == Fold(b) <==> SameTag(a, b)
  {
    forall x, y ensures Lower(x) == Lower(y) <==> SameLetter(x, y) {
      LowerMeaning(x, y);
    }
    if SameTag(a, b) {
      assert forall i :: 0 <= i < |a| ==> SameLetter(a[i], b[i]);
    } else if Fold(a) == Fold(b) {
      assert |Fold(a)| == |a| && |Fold(b)| == |b|;
      assert forall i :: 0 <= i < |a| ==> Fold(a)[i] == Lower(a[i]) && Fold(b)[i] == Lower(b[i]);
    }
  }

  lemma FoldsMean()
    ensures forall a, b {:trigger SameTag(a, b)} :: SameTag(a, b) <==> Fold(a) == Fold(b)
  {
    forall a, b ensures SameTag(a, b) <==> Fold(a) == Fold(b) {
      FoldMeaning(a, b);
    }
  }

  /** What strcasecmp calls equal. */
  lemma CaseCmpMeaning(a: string, b: string)
    ensures CaseCmp(a, b) == 0 <==> SameTag(a, b)
  {
    CaseCmpEqual(a, b);
    FoldMeaning(a, b);
  }

  /** The code of a letter in lower case. */
  function LowerCode(x: char): int
  {
    x as int + if 'A' <= x <= 'Z' then 32 else 0
  }

  /** `a` comes before `b`: at the first difference its letter, in lower case, has the
      smaller code, or it ends there. */
  predicate TagBefore(a: string, b: string, k: nat)
  {
    && k <= |a| && k <= |b| && SameTag(a[..k], b[..k])
    && (if k == |a| then k < |b|
        else k < |b| && LowerCode(a[k]) < LowerCode(b[k]))
  }

  /** The order of the trees of tags. */
  lemma {:induction false} CaseCmpBefore(a: string, b: string)
    ensures CaseCmp(a, b) < 0 <==> exists k: nat :: TagBefore(a, b, k)
  {
    assert Fold(a)[..] == Fold(a);
    if a != [] && b != [] && SameLetter(a[0], b[0]) {
      LowerMeaning(a[0], b[0]);
      assert Fold(a)[1..] == Fold(a[1..]) && Fold(b)[1..] == Fold(b[1..]);
      CaseCmpBefore(a[1..], b[1..]);
      if k: nat :| TagBefore(a[1..], b[1..], k) {
        SameTagMore(a, b, k);
        assert TagBefore(a, b, k + 1);
      }
      if k: nat :| TagBefore(a, b, k) {
        if k > 0 {
          SameTagMore(a, b, k - 1);
          assert TagBefore(a[1..], b[1..], k - 1);
        }
      }
    } else {
      FirstDiffers(a, b);
    }
  }

  lemma SameTagMore(a: string, b: string, k: nat)
    requires a != [] && b != [] && SameLetter(a[0], b[0]) && k < |a| && k < |b|
    ensures SameTag(a[..k + 1], b[..k + 1]) <==> SameTag(a[1..][..k], b[1..][..k])
  {
    var x, y := a[..k + 1], b[..k + 1];
    var u, v := a[1..][..k], b[1..][..k];
    assert forall i :: 0 <= i < k ==> u[i] == x[i + 1] && v[i] == y[i + 1];
    if SameTag(u, v) {
      forall i | 0 <= i < k + 1
        ensures SameLetter(x[i], y[i])
      {
        if i > 0 {
          assert SameLetter(u[i - 1], v[i - 1]);
        }
      }
    }
    if SameTag(x, y) {
      forall i | 0 <= i < k
        ensures SameLetter(u[i], v[i])
      {
        assert SameLetter(x[i + 1], y[i + 1]);
      }
    }
  }

  lemma FirstDiffers(a: string, b: string)
    requires a == [] || b == [] || !SameLetter(a[0], b[0])
    ensures CaseCmp(a, b) < 0 <==> exists k: nat :: TagBefore(a, b, k)
  {
    if a == [] {
      assert b != [] ==> TagBefore(a, b, 0);
    } else if b != [] {
      LowerMeaning(a[0], b[0]);
      assert Fold(a)[0] == Lower(a[0]) && Fold(b)[0] == Lower(b[0]);
      assert Lower(a[0]) as int == LowerCode(a[0]) && Lower(b[0]) as int == LowerCode(b[0]);
      forall k: nat | k > 0 ensures !TagBefore(a, b, k) {
        assert k <= |a| && k <= |b| ==> a[..k][0] == a[0] && b[..k][0] == b[0];
      }
      if CaseCmp(a, b) < 0 {
        assert TagBefore(a, b, 0);
      }
    }
  }

  // ----- The tag tree of a post -----------------------------------------------------------

  function Itself(s: string): string
  {
    s
  }

  /** A post's tag tree: sorted, and no two tags differ only in case. */
  ghost predicate TagTree(tags: seq<string>)
  {
    Sorted(tags, Itself, CaseCmp)
  }

  /** One turn of post_add_tags: a duplicate is dropped. */
  function AddTag(tags: seq<string>, tag: string): seq<string>
  {
    if Has(tags, tag, Itself, CaseCmp) then tags else Insert(tags, tag, Itself, CaseCmp)
  }

  function AddTags(tags: seq<string>, list: seq<string>): seq<string>
  {
    if list == [] then tags else AddTag(AddTags(tags, DropLast(list)), Last(list))
  }

  /** post_add_tags */
  method PostAddTags(tags: seq<string>, list: seq<string>) returns (out: seq<string>)
    requires TagTree(tags)
    ensures out == AddTags(tags, list) && TagTree(out)
  {
    out := tags;
    for i := 0 to |list|
      invariant out == AddTags(tags, list[..i]) && TagTree(out)
    {
      AddTagKeepsTree(out, list[i]);
      assert DropLast(list[..i + 1]) == list[..i];
      CaseCmpOrder();
      FoundAtPosition(out, list[i], Itself, CaseCmp);
      var where := Position(out, list[i], Itself, CaseCmp);
      if where < |out| && CaseCmp(out[where], list[i]) == 0 {
        continue;
      }
      out := InsertAt(out, where, list[i]);
    }
    assert list[..|list|] == list;
  }

  lemma AddTagKeepsTree(tags: seq<string>, tag: string)
    requires TagTree(tags)
    ensures TagTree(AddTag(tags, tag))
  {
    CaseCmpOrder();
    if !Has(tags, tag, Itself, CaseCmp) {
      InsertKeepsSorted(tags, tag, Itself, CaseCmp);
    }
  }

  predicate HasFold(tags: seq<string>, f: string)
  {
    exists i :: 0 <= i < |tags| && Fold(tags[i]) == f
  }

  lemma InsertedFolds(tags: seq<string>, p: nat, tag: string, f: string)
    requires p <= |tags|
    ensures HasFold(InsertAt(tags, p, tag), f) <==> HasFold(tags, f) || Fold(tag) == f
  {
    hide Fold;
    var out := InsertAt(tags, p, tag);
    assert out[p] == tag;
    forall i | 0 <= i < |tags|
      ensures out[if i < p then i else i + 1] == tags[i]
    {}
    if HasFold(out, f) {
      var i :| 0 <= i < |out| && Fold(out[i]) == f;
      assert i == p || out[i] == tags[if i < p then i else i - 1];
    }
  }

  predicate HasTag(tags: seq<string>, tag: string)
  {
    exists i :: 0 <= i < |tags| && SameTag(tags[i], tag)
  }

  lemma HasTagFold(tags: seq<string>, tag: string)
    ensures HasTag(tags, tag) <==> HasFold(tags, Fold(tag))
  {
    forall i | 0 <= i < |tags| ensures SameTag(tags[i], tag) <==> Fold(tags[i]) == Fold(tag) {
      FoldMeaning(tags[i], tag);
    }
  }

  lemma AddTagFolds(tags: seq<string>, tag: string, f: string)
    ensures HasFold(AddTag(tags, tag), f) <==> HasFold(tags, f) || Fold(tag) == f
    ensures forall t :: t in AddTag(tags, tag) ==> t in tags || t == tag
  {
    if Has(tags, tag, Itself, CaseCmp) {
      var i :| 0 <= i < |tags| && CaseCmp(Itself(tags[i]), tag) == 0;
      CaseCmpEqual(tags[i], tag);
    } else {
      InsertedElements(tags, tag, Itself, CaseCmp);
      InsertedFolds(tags, Position(tags, tag, Itself, CaseCmp), tag, f);
    }
  }

  lemma HasFoldSnoc(list: seq<string>, f: string)
    requires list != []
    ensures HasFold(list, f) <==> HasFold(DropLast(list), f) || Fold(Last(list)) == f
  {
    assert forall i :: 0 <= i < |list| - 1 ==> list[i] == DropLast(list)[i];
    if Fold(Last(list)) == f {
      assert Fold(list[|list| - 1]) == f;
    }
  }

  /** The tree holds one spelling of every tag that was added, and nothing else. */
  lemma {:induction false} AddTagsUnion(tags: seq<string>, list: seq<string>, f: string)
    requires TagTree(tags)
    ensures TagTree(AddTags(tags, list))
    ensures HasFold(AddTags(tags, list), f) <==> HasFold(tags, f) || HasFold(list, f)
    ensures forall t :: t in AddTags(tags, list) ==> t in tags || t in list
  {
    if list != [] {
      AddTagsUnion(tags, DropLast(list), f);
      AddTagKeepsTree(AddTags(tags, DropLast(list)), Last(list));
      AddTagFolds(AddTags(tags, DropLast(list)), Last(list), f);
      HasFoldSnoc(list, f);
    }
  }

  /** Tags that are there already change nothing. */
  lemma {:induction false} AddKnownTags(tags: seq<string>, list: seq<string>)
    requires forall t :: t in list ==> HasFold(tags, Fold(t))
    ensures AddTags(tags, list) == tags
  {
    if list != [] {
      AddKnownTags(tags, DropLast(list));
      assert Last(list) in list;
      var i :| 0 <= i < |tags| && Fold(tags[i]) == Fold(Last(list));
      CaseCmpEqual(tags[i], Last(list));
    }
  }

  lemma AddTagsTwice(tags: seq<string>, list: seq<string>)
    requires TagTree(tags)
    ensures AddTags(AddTags(tags, list), list) == AddTags(tags, list)
  {
    forall t | t in list
      ensures HasFold(AddTags(tags, list), Fold(t))
    {
      AddTagsUnion(tags, list, Fold(t));
      var i :| 0 <= i < |list| && list[i] == t;
    }
    AddKnownTags(AddTags(tags, list), list);
  }

  /** The first spelling of a tag stays. */
  lemma {:induction false} AddTagsKeeps(tags: seq<string>, list: seq<string>)
    ensures forall t :: t in tags ==> t in AddTags(tags, list)
  {
    if list != [] {
      var front := AddTags(tags, DropLast(list));
      AddTagsKeeps(tags, DropLast(list));
      InsertedElements(front, Last(list), Itself, CaseCmp);
    }
  }

  /** The tree has every tag that was added, up to case, and no two tags that differ
      only in case. */
  lemma TagsOfPost(tags: seq<string>, list: seq<string>)
    requires TagTree(tags)
    ensures forall t :: t in tags + list ==> exists u :: u in AddTags(tags, list) && SameTag(u, t)
    ensures forall i, j :: 0 <= i < j < |AddTags(tags, list)| ==>
              !SameTag(AddTags(tags, list)[i], AddTags(tags, list)[j])
  {
    var all := AddTags(tags, list);
    forall t | t in tags + list
      ensures exists u :: u in all && SameTag(u, t)
    {
      AddTagsUnion(tags, list, Fold(t));
      if t in tags {
        var i :| 0 <= i < |tags| && tags[i] == t;
        assert HasFold(tags, Fold(t));
      } else {
        var i :| 0 <= i < |list| && list[i] == t;
        assert HasFold(list, Fold(t));
      }
      var k :| 0 <= k < |all| && Fold(all[k]) == Fold(t);
      FoldMeaning(all[k], t);
      assert all[k] in all;
    }
    AddTagsUnion(tags, list, "");
    forall i, j | 0 <= i < j < |all|
      ensures !SameTag(all[i], all[j])
    {
      TreeFoldsDistinct(all, i, j);
      FoldMeaning(all[i], all[j]);
    }
  }

  /** No two tags of a tree differ at most in case. */
  lemma TreeFoldsDistinct(tags: seq<string>, i: nat, j: nat)
    requires TagTree(tags) && i < j < |tags|
    ensures Fold(tags[i]) != Fold(tags[j]) && !SameTag(tags[i], tags[j])
  {
    FoldMeaning(tags[i], tags[j]);
    CaseCmpEqual(tags[i], tags[j]);
    assert Before(tags, i, j, Itself, CaseCmp);
  }
}
