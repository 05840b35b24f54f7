/**
 The tag cloud of the sidebar (sidebar.c), filled by the walk over the tag index
 (`index_for_each_tag`, post_index.c).  Sizes are computed in exact arithmetic.
 */
module TagCloud {
  import opened Basics
  import opened Posts
  import opened RbTree
  import opened Tags
  import opened PostIndex

  const ULONG_MAX := 0xFFFF_FFFF_FFFF_FFFF

  datatype Config = Config(minSize: nat, maxSize: nat)

  datatype Cell = Cell(name: string, count: nat, size: int)

  // ----- Sizes --------------------------------------------------------------------------------

  function Ceil(x: real): int
  {
    -(-x).Floor
  }

  /** __tag_size */
  function TagSize(config: Config, count: int, cmin: int, cmax: int): int
    requires config.minSize <= config.maxSize && count <= cmax
  {
    if count <= cmin then config.minSize
    else
      var size := (config.maxSize - config.minSize) * (count - cmin);
      Ceil(config.minSize as real + size as real / (cmax - cmin) as real)
  }

  lemma MulMonotone(d: nat, x: nat, y: nat)
    requires x <= y
    ensures d * x <= d * y
  {}

  lemma DivMonotone(a: real, b: real, w: real)
    requires a <= b && w > 0.0
    ensures a / w <= b / w
  {}

  lemma DivSelf(d: nat, w: nat)
    requires w > 0
    ensures (d * w) as real / w as real == d as real
  {
    assert (d * w) as real == d as real * w as real;
  }

  lemma CeilMonotone(a: real, b: real)
    requires a <= b
    ensures Ceil(a) <= Ceil(b)
  {}

  /** A more frequent tag is never smaller. */
  lemma TagSizeMonotone(config: Config, few: int, many: int, cmin: int, cmax: int)
    requires config.minSize <= config.maxSize && cmin <= few <= many <= cmax
    ensures TagSize(config, few, cmin, cmax) <= TagSize(config, many, cmin, cmax)
  {
    if few > cmin {
      var d, w := config.maxSize - config.minSize, (cmax - cmin) as real;
      var a, b := d * (few - cmin), d * (many - cmin);
      MulMonotone(d, few - cmin, many - cmin);
      DivMonotone(a as real, b as real, w);
      CeilMonotone(config.minSize as real + a as real / w, config.minSize as real + b as real / w);
    } else {
      TagSizeAboveMin(config, many, cmin, cmax);
    }
  }

  /** Only the rarest tags have the smallest size. */
  lemma TagSizeAboveMin(config: Config, count: int, cmin: int, cmax: int)
    requires config.minSize <= config.maxSize && cmin <= count <= cmax
    ensures TagSize(config, count, cmin, cmax) >= config.minSize
    ensures TagSize(config, count, cmin, cmax) == config.minSize
            <==> count == cmin || config.minSize == config.maxSize
  {
    if count > cmin {
      var d, x, w := config.maxSize - config.minSize, count - cmin, (cmax - cmin) as real;
      MulMonotone(x, 0, d);
      assert d > 0 ==> d * x >= 1 by {
        if d > 0 {
          MulMonotone(x, 1, d);
        }
      }
      PositiveQuotient((d * x) as real, w);
    }
  }

  lemma PositiveQuotient(a: real, w: real)
    requires a >= 0.0 && w > 0.0
    ensures a / w >= 0.0 && (a > 0.0 <==> a / w > 0.0)
  {}

  /** The most frequent tags have the largest size, unless all are equally frequent. */
  lemma TagSizeAtMax(config: Config, cmin: int, cmax: int)
    requires config.minSize <= config.maxSize && cmin < cmax
    ensures TagSize(config, cmax, cmin, cmax) == config.maxSize
  {
    DivSelf(config.maxSize - config.minSize, cmax - cmin);
  }

  lemma TimesWidth(x: real, w: real, y: real)
    requires w > 0.0
    ensures x <= y / w <==> x * w <= y
    ensures x < y / w <==> x * w < y
    ensures x >= y / w <==> x * w >= y
  {
    assert y / w * w == y;
    MulOrder(x, y / w, w);
    MulOrder(y / w, x, w);
  }

  lemma MulOrder(x: real, y: real, w: real)
    requires w > 0.0
    ensures x < y ==> x * w < y * w
    ensures x <= y ==> x * w <= y * w
  {}

  /** The size between the ends: the linear interpolation, rounded up.  In integers, it is
      the smallest size whose distance from the minimum is not below the tag's share. */
  lemma TagSizeInterpolates(config: Config, count: int, cmin: int, cmax: int)
    requires config.minSize <= config.maxSize && cmin < count <= cmax
    ensures var above := TagSize(config, count, cmin, cmax) - config.minSize;
            var share := (config.maxSize - config.minSize) * (count - cmin);
            (above - 1) * (cmax - cmin) < share <= above * (cmax - cmin)
  {
    var w, share := (cmax - cmin) as real, (config.maxSize - config.minSize) * (count - cmin);
    var q := share as real / w;
    var above := TagSize(config, count, cmin, cmax) - config.minSize;
    CeilBounds(config.minSize as real + q);
    assert (above - 1) as real < q <= above as real;
    TimesWidth((above - 1) as real, w, share as real);
    TimesWidth(above as real, w, share as real);
    assert ((above - 1) * (cmax - cmin)) as real == (above - 1) as real * w;
    assert (above * (cmax - cmin)) as real == above as real * w;
  }

  lemma CeilBounds(x: real)
    ensures (Ceil(x) - 1) as real < x <= Ceil(x) as real
  {}

  /** Sizes are within the configured bounds. */
  lemma TagSizeInRange(config: Config, count: int, cmin: int, cmax: int)
    requires config.minSize <= config.maxSize && cmin <= count <= cmax
    ensures config.minSize <= TagSize(config, count, cmin, cmax) <= config.maxSize
  {
    TagSizeAboveMin(config, count, cmin, cmax);
    if cmin < cmax {
      TagSizeMonotone(config, count, cmax, cmin, cmax);
      TagSizeAtMax(config, cmin, cmax);
    }
  }

  // ----- The walk -----------------------------------------------------------------------------

  /** The smallest number of posts in any of the subindices. */
  function MinCount(subs: seq<SubIndex>): nat
    reads subs
  {
    if subs == [] then ULONG_MAX else Min(MinCount(DropLast(subs)), |Last(subs).subindex|)
  }

  function MaxCount(subs: seq<SubIndex>): nat
    reads subs
  {
    if subs == [] then 0 else Max(MaxCount(DropLast(subs)), |Last(subs).subindex|)
  }

  /** What the step callback relies on: cmin <= count <= cmax. */
  lemma {:induction false} CountsInRange(subs: seq<SubIndex>, s: SubIndex)
    requires s in subs
    ensures MinCount(subs) <= |s.subindex| <= MaxCount(subs)
  {
    if s in DropLast(subs) {
      CountsInRange(DropLast(subs), s);
    } else {
      assert subs == DropLast(subs) + [Last(subs)];
    }
  }

  /** Some tag is the most frequent one. */
  lemma {:induction false} MaxCountAttained(subs: seq<SubIndex>)
    requires subs != []
    ensures exists s :: s in subs && |s.subindex| == MaxCount(subs)
  {
    if |subs| > 1 && MaxCount(DropLast(subs)) > |Last(subs).subindex| {
      MaxCountAttained(DropLast(subs));
      var s :| s in DropLast(subs) && |s.subindex| == MaxCount(DropLast(subs));
      assert s in subs;
    } else {
      assert MaxCount(subs) == |Last(subs).subindex|;
      assert Last(subs) in subs;
    }
  }

  /** The cells for the tags that more than one post has. */
  function CellsOf(subs: seq<SubIndex>, config: Config, cmin: nat, cmax: nat): seq<Cell>
    requires config.minSize <= config.maxSize
    requires forall s :: s in subs ==> |s.subindex| <= cmax
    reads subs
  {
    if subs == [] then []
    else
      var cells, count := CellsOf(DropLast(subs), config, cmin, cmax), |Last(subs).subindex|;
      if count <= 1 then cells
      else cells + [Cell(Last(subs).name, count, TagSize(config, count, cmin, cmax))]
  }

  /** struct tagcloud_state */
  class TagcloudState {
    var ntags: nat
    var cloud: array<Cell>

    /** __tagcloud_init */
    constructor (ntags: nat)
      ensures this.ntags == 0 && cloud.Length == ntags && fresh(cloud)
    {
      cloud := new Cell[ntags](_ => Cell("", 0, 0));
      this.ntags := 0;
    }

    /** __tagcloud_step */
    method Step(config: Config, name: string, count: nat, cmin: nat, cmax: nat)
      requires config.minSize <= config.maxSize && count <= cmax
      requires ntags < cloud.Length
      modifies `ntags, cloud
      ensures ntags == old(ntags) + (if count <= 1 then 0 else 1) <= cloud.Length
      ensures cloud[..ntags] == old(cloud[..ntags]) +
                if count <= 1 then [] else [Cell(name, count, TagSize(config, count, cmin, cmax))]
    {
      if count <= 1 {
        return;
      }
      cloud[ntags] := Cell(name, count, TagSize(config, count, cmin, cmax));
      ntags := ntags + 1;
    }
  }

  /** The first loop of index_for_each_tag. */
  method FindMinMax(subs: seq<SubIndex>) returns (cmin: nat, cmax: nat)
    ensures cmin == MinCount(subs) && cmax == MaxCount(subs)
  {
    cmin, cmax := ULONG_MAX, 0;
    for i := 0 to |subs|
      invariant cmin == MinCount(subs[..i]) && cmax == MaxCount(subs[..i])
    {
      assert DropLast(subs[..i + 1]) == subs[..i];
      cmin := Min(cmin, |subs[i].subindex|);
      cmax := Max(cmax, |subs[i].subindex|);
    }
    assert subs[..|subs|] == subs;
  }

  /** The second loop, which never fills the array beyond its size. */
  method StepTags(state: TagcloudState, subs: seq<SubIndex>, config: Config, cmin: nat, cmax: nat)
    requires config.minSize <= config.maxSize && state.ntags == 0 && state.cloud.Length == |subs|
    requires forall s :: s in subs ==> |s.subindex| <= cmax
    modifies state`ntags, state.cloud
    ensures state.ntags <= state.cloud.Length
    ensures state.cloud[..state.ntags] == CellsOf(subs, config, cmin, cmax)
  {
    for i := 0 to |subs|
      invariant state.ntags <= i
      invariant state.cloud[..state.ntags] == CellsOf(subs[..i], config, cmin, cmax)
    {
      assert DropLast(subs[..i + 1]) == subs[..i];
      state.Step(config, subs[i].name, |subs[i].subindex|, cmin, cmax);
    }
    assert subs[..|subs|] == subs;
  }

  lemma AllInRange(subs: seq<SubIndex>)
    ensures forall s :: s in subs ==> MinCount(subs) <= |s.subindex| <= MaxCount(subs)
  {
    forall s | s in subs
      ensures MinCount(subs) <= |s.subindex| <= MaxCount(subs)
    {
      CountsInRange(subs, s);
    }
  }

  /** The cells for an index. */
  function Cells(subs: seq<SubIndex>, config: Config): seq<Cell>
    requires config.minSize <= config.maxSize
    reads subs
  {
    AllInRange(subs);
    CellsOf(subs, config, MinCount(subs), MaxCount(subs))
  }

  /** index_for_each_tag with the callbacks of the tag cloud. */
  method Tagcloud(index: Index, config: Config) returns (state: TagcloudState)
    requires config.minSize <= config.maxSize
    ensures state.ntags <= state.cloud.Length == |index.byTag|
    ensures state.cloud[..state.ntags] == Cells(index.byTag, config)
  {
    var subs := index.byTag;
    state := new TagcloudState(|subs|);
    var cmin, cmax := FindMinMax(subs);
    AllInRange(subs);
    StepTags(state, subs, config, cmin, cmax);
  }

  // ----- What the cloud shows -----------------------------------------------------------------

  lemma {:induction false} CellsFrom(subs: seq<SubIndex>, config: Config, cmin: nat, cmax: nat)
    requires config.minSize <= config.maxSize
    requires forall s :: s in subs ==> |s.subindex| <= cmax
    ensures var cells := CellsOf(subs, config, cmin, cmax);
            && (forall c :: c in cells ==> FromSub(c, subs, config, cmin, cmax))
            && (forall s :: s in subs && |s.subindex| > 1 ==>
                  exists c :: c in cells && IsCell(c, s, config, cmin, cmax))
  {
    if subs != [] {
      var front, cells := CellsOf(DropLast(subs), config, cmin, cmax), CellsOf(subs, config, cmin, cmax);
      CellsFrom(DropLast(subs), config, cmin, cmax);
      forall c | c in cells
        ensures FromSub(c, subs, config, cmin, cmax)
      {
        if c in front {
          assert FromSub(c, DropLast(subs), config, cmin, cmax);
          var s :| s in DropLast(subs) && IsCell(c, s, config, cmin, cmax);
          assert s in subs;
        } else {
          assert IsCell(c, Last(subs), config, cmin, cmax);
        }
      }
      forall s | s in subs && |s.subindex| > 1
        ensures exists c :: c in cells && IsCell(c, s, config, cmin, cmax)
      {
        if s in DropLast(subs) {
          var c :| c in front && IsCell(c, s, config, cmin, cmax);
          assert c in cells;
        } else {
          assert subs == DropLast(subs) + [Last(subs)];
          assert IsCell(Last(cells), s, config, cmin, cmax);
        }
      }
    }
  }

  ghost predicate FromSub(c: Cell, subs: seq<SubIndex>, config: Config, cmin: nat, cmax: nat)
    requires config.minSize <= config.maxSize
    requires forall s :: s in subs ==> |s.subindex| <= cmax
    reads subs
  {
    exists s :: s in subs && IsCell(c, s, config, cmin, cmax)
  }

  predicate IsCell(c: Cell, s: SubIndex, config: Config, cmin: nat, cmax: nat)
    requires config.minSize <= config.maxSize && |s.subindex| <= cmax
    reads s
  {
    c.count > 1 && c == Cell(s.name, |s.subindex|, TagSize(config, |s.subindex|, cmin, cmax))
  }

  /** A tag is in the cloud exactly if more than one post has it, with the number
      of those posts and a size within bounds. */
  lemma CloudShowsTags(index: Index, config: Config, tag: string)
    requires index.Valid() && config.minSize <= config.maxSize
    ensures var cells := Cells(index.byTag, config);
            && (|index.TagView(tag)| > 1 <==> exists c :: c in cells && SameTag(c.name, tag))
            && (forall c :: c in cells && SameTag(c.name, tag) ==>
                  c.count == |index.TagView(tag)| && config.minSize <= c.size <= config.maxSize)
  {
    var subs := index.byTag;
    var cmin, cmax := MinCount(subs), MaxCount(subs);
    var cells := Cells(subs, config);
    FoldsMean();
    AllInRange(subs);
    CellsFrom(subs, config, cmin, cmax);
    forall c | c in cells && SameTag(c.name, tag)
      ensures c.count > 1 && c.count == |index.TagView(tag)| && config.minSize <= c.size <= config.maxSize
    {
      assert FromSub(c, subs, config, cmin, cmax);
      var s :| s in subs && IsCell(c, s, config, cmin, cmax);
      SubFound(subs, s, tag);
      CountsInRange(subs, s);
      TagSizeInRange(config, |s.subindex|, cmin, cmax);
    }
    if |index.TagView(tag)| > 1 {
      var s := Lookup(subs, tag, SubName, CaseCmp).elem;
      LookupFold(subs, s, tag, tag);
      var c :| c in cells && IsCell(c, s, config, cmin, cmax);
    }
  }

  /** Unless all tags are equally frequent, some tag is shown with the largest size. */
  lemma CloudHasLargest(index: Index, config: Config)
    requires index.Valid() && config.minSize <= config.maxSize
    requires index.byTag != [] && MinCount(index.byTag) < MaxCount(index.byTag)
    ensures exists c :: c in Cells(index.byTag, config) && c.size == config.maxSize
  {
    var subs := index.byTag;
    var cmin, cmax := MinCount(subs), MaxCount(subs);
    AllInRange(subs);
    MaxCountAttained(subs);
    MinCountPositive(subs);
    var s :| s in subs && |s.subindex| == cmax;
    CellsFrom(subs, config, cmin, cmax);
    var c :| c in Cells(subs, config) && IsCell(c, s, config, cmin, cmax);
    TagSizeAtMax(config, cmin, cmax);
  }

  lemma {:induction false} MinCountPositive(subs: seq<SubIndex>)
    requires forall s :: s in subs ==> NonEmpty(s)
    ensures MinCount(subs) > 0
  {
    if subs != [] {
      MinCountPositive(DropLast(subs));
      assert Last(subs) in subs;
    }
  }

  lemma SubFound(subs: seq<SubIndex>, s: SubIndex, tag: string)
    requires Sorted(subs, SubName, CaseCmp) && s in subs && Fold(s.name) == Fold(tag)
    ensures Lookup(subs, tag, SubName, CaseCmp) == Present(s)
  {
    var i :| 0 <= i < |subs| && subs[i] == s;
    CaseCmpEqual(s.name, tag);
    CaseCmpOrder();
    LookupUnique(subs, i, tag, SubName, CaseCmp);
  }
}
