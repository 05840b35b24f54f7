/**
 `concat5` (utils.c): concatenates up to five strings and frees its sources.
 The same buffer may be passed more than once, and any argument may be NULL.
 */
module Concat {
  /** A malloc'ed, terminated string. */
  class Buffer {
    const text: string
    var live: bool

    constructor (text: string)
      ensures this.text == text && live
    {
      this.text := text;
      live := true;
    }

    /** strcpy from this buffer: reading after free is not allowed. */
    method Read() returns (s: string)
      requires live
      ensures s == text
    {
      s := text;
    }

    /** free: freeing twice is not allowed. */
    method Free()
      requires live
      modifies this
      ensures !live
    {
      live := false;
    }
  }

  function Text(b: Buffer?): string
  {
    if b == null then "" else b.text
  }

  /** The sources in order. */
  function Joined(src: seq<Buffer?>): string
  {
    if src == [] then "" else Joined(src[..|src| - 1]) + Text(src[|src| - 1])
  }

  /** The number of arguments that are not NULL; an alias counts again. */
  function Count(src: seq<Buffer?>): nat
  {
    if src == [] then 0
    else Count(src[..|src| - 1]) + if src[|src| - 1] == null then 0 else 1
  }

  /** The index of the last argument that is not NULL. */
  function LastIndex(src: seq<Buffer?>): (k: int)
    ensures -1 <= k < |src|
    ensures k >= 0 ==> src[k] != null
    ensures forall j :: k < j < |src| ==> src[j] == null
    ensures k == -1 <==> Count(src) == 0
  {
    if src == [] then -1
    else if src[|src| - 1] != null then |src| - 1
    else LastIndex(src[..|src| - 1])
  }

  /** Index i is the last one that holds this buffer, so it is the one that frees it. */
  predicate LastUse(src: seq<Buffer?>, i: nat)
    requires i < |src|
  {
    src[i] != null && forall j :: i < j < |src| ==> src[j] != src[i]
  }

  /** The facts the first loop collects about the first `i` sources. */
  ghost predicate Scanned(src: seq<Buffer?>, i: nat, first: int, last: int)
    requires i <= |src|
  {
    && -1 <= first <= last < i
    && (first == -1 <==> last == -1)
    && (first >= 0 ==> src[first] != null && src[last] != null)
    && forall j :: 0 <= j < i && (j < first || last < j) ==> src[j] == null
  }

  lemma {:induction false} CountPositive(src: seq<Buffer?>, k: nat)
    requires k < |src| && src[k] != null
    ensures Count(src) >= 1
  {
    if k < |src| - 1 {
      CountPositive(src[..|src| - 1], k);
    }
  }

  lemma {:induction false} CountTwo(src: seq<Buffer?>, i: nat, j: nat)
    requires i < j < |src| && src[i] != null && src[j] != null
    ensures Count(src) >= 2
  {
    var front := src[..|src| - 1];
    if j < |src| - 1 {
      CountTwo(front, i, j);
    } else {
      assert front[i] == src[i];
      CountPositive(front, i);
    }
  }

  /** Dropping trailing NULLs changes nothing. */
  lemma {:induction false} JoinedPrefix(src: seq<Buffer?>, n: nat)
    requires n <= |src| && forall j :: n <= j < |src| ==> src[j] == null
    ensures Joined(src) == Joined(src[..n])
  {
    if n == |src| {
      assert src[..n] == src;
    } else {
      JoinedPrefix(src[..|src| - 1], n);
      assert src[..|src| - 1][..n] == src[..n];
    }
  }

  lemma {:induction false} TrailingNulls(src: seq<Buffer?>, n: nat)
    requires n <= |src| && forall j :: n <= j < |src| ==> src[j] == null
    ensures Count(src) == Count(src[..n]) && LastIndex(src) == LastIndex(src[..n])
  {
    if n == |src| {
      assert src[..n] == src;
    } else {
      TrailingNulls(src[..|src| - 1], n);
      assert src[..|src| - 1][..n] == src[..n];
    }
  }

  lemma {:induction false} AllNull(src: seq<Buffer?>)
    requires forall j :: 0 <= j < |src| ==> src[j] == null
    ensures Joined(src) == "" && Count(src) == 0
  {
    if src != [] {
      AllNull(src[..|src| - 1]);
    }
  }

  /** A lone source is the whole concatenation. */
  lemma CountOne(src: seq<Buffer?>, k: nat)
    requires k < |src| && src[k] != null && Count(src) == 1
    ensures Joined(src) == src[k].text
    ensures forall j :: 0 <= j < |src| && j != k ==> src[j] == null
  {
    forall j | 0 <= j < |src| && j != k
      ensures src[j] == null
    {
      if src[j] != null {
        CountTwo(src, if j < k then j else k, if j < k then k else j);
      }
    }
    JoinedPrefix(src, k + 1);
    AllNull(src[..k]);
    assert src[..k + 1][..k] == src[..k];
  }

  /** The inner loop: the bit of a source that is passed again later is cleared. */
  method MarkLastUse(src: seq<Buffer?>, i: nat, bits: seq<bool>) returns (tofree: seq<bool>)
    requires i < |src| == |bits| && src[i] != null && bits[i]
    ensures tofree == bits[i := LastUse(src, i)]
  {
    tofree := bits;
    for j := i + 1 to |src|
      invariant |tofree| == |src|
      invariant tofree[i] <==> forall k :: i < k < j ==> src[k] != src[i]
      invariant tofree == bits[i := tofree[i]]
    {
      if src[i] == src[j] {
        tofree := tofree[i := false];
      }
    }
  }

  /** The first loop: lengths are added up, and a source that is passed again
      later loses its bit in the bitmap of what to free. */
  method Scan(src: seq<Buffer?>)
    returns (totallen: nat, nsrc: nat, first: int, last: int, tofree: seq<bool>)
    requires AllLive(src)
    ensures Scanned(src, |src|, first, last) && FreeBits(src, tofree)
    ensures nsrc == Count(src) && totallen == |Joined(src)|
  {
    totallen, nsrc, first, last := 0, 0, -1, -1;
    tofree := seq(|src|, _ => true);
    for i := 0 to |src|
      invariant |tofree| == |src|
      invariant Scanned(src, i, first, last)
      invariant nsrc == Count(src[..i]) && totallen == |Joined(src[..i])|
      invariant forall k :: 0 <= k < i && src[k] != null ==> (tofree[k] <==> LastUse(src, k))
      invariant forall k :: i <= k < |src| ==> tofree[k]
    {
      assert src[..i + 1][..i] == src[..i];
      var len := 0;
      if src[i] != null {
        var text := src[i].Read();
        len := |text|;
        last := i;
        if first == -1 {
          first := i;
        }
        nsrc := nsrc + 1;
        tofree := MarkLastUse(src, i, tofree);
      }
      totallen := totallen + len;
    }
    assert src[..|src|] == src;
  }

  /** What concat5 leaves behind.  A single source is handed back.  Otherwise
      the result is new and each buffer has been freed, except that the last
      argument survives when there is nothing to copy. */
  twostate predicate Consumed(src: seq<Buffer?>, new ret: Buffer)
    reads src, ret
  {
    && ret.live
    && ret.text == Joined(src)
    && (if Count(src) == 1 then ret == src[LastIndex(src)]
        else
          && fresh(ret)
          && forall k :: 0 <= k < |src| && src[k] != null ==>
               (src[k].live <==> ret.text == "" && src[k] == src[LastIndex(src)]))
  }

  /** The body of concat5 for its local array of sources. */
  method ConcatSources(src: seq<Buffer?>) returns (ret: Buffer)
    requires AllLive(src)
    modifies src
    ensures Consumed(src, ret)
  {
    var totallen, nsrc, first, last, tofree := Scan(src);
    if first == -1 {
      AllNull(src);
    }
    assert LastIndex(src) == last;

    if nsrc == 1 {
      CountOne(src, first);
      return src[first];
    }

    if totallen == 0 {
      FreeAllButLast(src, tofree, first, last);
      if last >= 0 {
        OnlyLastLives(src, last);
      }
      ret := new Buffer("");
    } else {
      var out := CopyAndFree(src, tofree, first, last);
      NoneLives(src);
      ret := new Buffer(out);
    }
  }

  method Concat5(a: Buffer?, b: Buffer?, c: Buffer?, d: Buffer?, e: Buffer?) returns (ret: Buffer)
    requires AllLive([a, b, c, d, e])
    modifies [a, b, c, d, e]
    ensures Consumed([a, b, c, d, e], ret)
  {
    ret := ConcatSources([a, b, c, d, e]);
  }

  /** The leak happens: of two empty strings the second is never freed. */
  method TwoEmptyStrings() returns (first: Buffer, second: Buffer, ret: Buffer)
    ensures first.text == second.text == ret.text == "" && ret != first && ret != second && first != second
    ensures !first.live && second.live && ret.live
  {
    first := new Buffer("");
    second := new Buffer("");
    var src: seq<Buffer?> := [first, second, null, null, null];
    CountFromTwo(src);
    ret := Concat5(first, second, null, null, null);
    assert src[0] == first && src[1] == second;
  }

  lemma CountFromTwo(src: seq<Buffer?>)
    requires |src| == 5 && src[0] != null && src[1] != null && src[2] == src[3] == src[4] == null
    requires src[0].text == src[1].text == ""
    ensures Count(src) == 2 && Joined(src) == "" && LastIndex(src) == 1
  {
    JoinedPrefix(src, 2);
    TrailingNulls(src, 2);
    var two, one := src[..2], src[..1];
    assert two[..1] == one && one[..0] == [] && two[1] == src[1] && one[0] == src[0];
    assert Count(one) == 1 && Joined(one) == "";
    assert Joined(two) == Joined(one) + Text(src[1]);
  }

  ghost predicate AllLive(src: seq<Buffer?>)
    reads src
  {
    forall k :: 0 <= k < |src| && src[k] != null ==> src[k].live
  }

  /** free(src[i]); free(NULL) does nothing. */
  method Release(src: seq<Buffer?>, i: nat)
    requires i < |src| && (src[i] != null ==> LastUse(src, i))
    requires LiveFrom(src, i)
    modifies src
    ensures LiveFrom(src, i + 1)
  {
    if src[i] != null {
      src[i].Free();
      forall k | 0 <= k < |src| && LastUse(src, k)
        ensures src[k].live <==> i + 1 <= k
      {
        assert k != i ==> src[k] != src[i];
      }
    }
  }

  /** The branch for an empty result: the loop stops before the last source. */
  method FreeAllButLast(src: seq<Buffer?>, tofree: seq<bool>, first: int, last: int)
    requires Scanned(src, |src|, first, last)
    requires FreeBits(src, tofree)
    requires LiveFrom(src, 0)
    modifies src
    ensures LiveFrom(src, if last < 0 then 0 else last)
  {
    var i := first;
    while i < last
      invariant first <= i && (i <= last || last < first)
      invariant LiveFrom(src, if i < 0 then 0 else i)
    {
      if tofree[i] {
        Release(src, i);
      }
      i := i + 1;
    }
  }

  /** One turn of the copying loop: a source is freed right after its last use. */
  method CopySource(src: seq<Buffer?>, tofree: seq<bool>, i: nat, out: string) returns (longer: string)
    requires i < |src| && FreeBits(src, tofree) && LiveFrom(src, i)
    modifies src
    ensures longer == out + Text(src[i])
    ensures LiveFrom(src, i + 1)
  {
    longer := out;
    if src[i] != null {
      StillLive(src, i);
      var text := src[i].Read();
      longer := out + text;
      if tofree[i] {
        Release(src, i);
      }
    }
  }

  method CopyAndFree(src: seq<Buffer?>, tofree: seq<bool>, first: int, last: int) returns (out: string)
    requires Scanned(src, |src|, first, last) && first >= 0
    requires FreeBits(src, tofree) && LiveFrom(src, 0)
    modifies src
    ensures out == Joined(src)
    ensures LiveFrom(src, |src|)
  {
    out := "";
    var i := first;
    AllNull(src[..first]);
    while i <= last
      invariant first <= i <= last + 1
      invariant out == Joined(src[..i])
      invariant LiveFrom(src, i)
    {
      assert src[..i + 1][..i] == src[..i];
      out := CopySource(src, tofree, i, out);
      i := i + 1;
    }
    JoinedPrefix(src, i);
  }

  /** A source at or after `i` has its last use there as well. */
  lemma StillLive(src: seq<Buffer?>, i: nat)
    requires i < |src| && src[i] != null && LiveFrom(src, i)
    ensures src[i].live
  {
    var k := LastUseExists(src, src[i]);
  }

  lemma NoneLives(src: seq<Buffer?>)
    requires LiveFrom(src, |src|)
    ensures forall k :: 0 <= k < |src| && src[k] != null ==> !src[k].live
  {
    forall k | 0 <= k < |src| && src[k] != null
      ensures !src[k].live
    {
      var u := LastUseExists(src, src[k]);
    }
  }

  lemma OnlyLastLives(src: seq<Buffer?>, last: nat)
    requires last < |src| && src[last] != null && LiveFrom(src, last)
    requires forall j :: last < j < |src| ==> src[j] == null
    ensures forall k :: 0 <= k < |src| && src[k] != null ==> (src[k].live <==> src[k] == src[last])
  {
    forall k | 0 <= k < |src| && src[k] != null
      ensures src[k].live <==> src[k] == src[last]
    {
      var u := LastUseExists(src, src[k]);
      assert LastUse(src, last);
    }
  }

  /** The bitmap computed by the first loop. */
  ghost predicate FreeBits(src: seq<Buffer?>, tofree: seq<bool>)
  {
    && |tofree| == |src|
    && forall k {:trigger tofree[k]} :: 0 <= k < |src| && src[k] != null ==> (tofree[k] <==> LastUse(src, k))
  }

  /** Who is live while the sources from `i` on are still to be handled. */
  ghost predicate LiveFrom(src: seq<Buffer?>, i: nat)
    reads src
    requires i <= |src|
  {
    forall k {:trigger LastUse(src, k)} :: 0 <= k < |src| && LastUse(src, k) ==> (src[k].live <==> i <= k)
  }

  /** Every buffer has a last use. */
  lemma LastUseExists(src: seq<Buffer?>, s: Buffer) returns (k: nat)
    requires s in src
    ensures k < |src| && src[k] == s && LastUse(src, k)
  {
    var i :| 0 <= i < |src| && src[i] == s;
    k := i;
    while exists j :: k < j < |src| && src[j] == s
      invariant 0 <= k < |src| && src[k] == s
      decreases |src| - k
    {
      var j :| k < j < |src| && src[j] == s;
      k := j;
    }
  }
}
