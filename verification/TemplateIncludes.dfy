/**
 The rank that makes rendering terminate exists exactly when no template
 includes itself, directly or through others.
 */
module TemplateIncludes {
  import opened Basics
  import opened Template

  ghost predicate Edge(pages: map<string, seq<Item>>, from: string, to: string)
  {
    from in pages && to in pages && exists i :: 0 <= i < |pages[from]| && Target(pages[from][i]) == Some(to)
  }

  ghost predicate Path(pages: map<string, seq<Item>>, p: seq<string>)
  {
    forall i :: 0 <= i < |p| - 1 ==> Edge(pages, p[i], p[i + 1])
  }

  ghost predicate Cycle(pages: map<string, seq<Item>>, p: seq<string>)
  {
    |p| >= 2 && p[0] == p[|p| - 1] && Path(pages, p)
  }

  ghost predicate HasSuccessor(pages: map<string, seq<Item>>, left: set<string>, t: string)
  {
    exists u :: u in left && Edge(pages, t, u)
  }

  lemma RankedIffAcyclic(pages: map<string, seq<Item>>)
    ensures (exists rank :: Ranked(Library(pages, rank))) <==> !exists p :: Cycle(pages, p)
  {
    if rank, p :| Ranked(Library(pages, rank)) && Cycle(pages, p) {
      RanksFall(Library(pages, rank), p, |p| - 1);
    }
    if !exists p :: Cycle(pages, p) {
      var rank := Order(pages, pages.Keys);
      var lib := Library(pages, rank);
      forall tmpl, i | tmpl in pages && 0 <= i < |pages[tmpl]|
        ensures Below(lib, pages[tmpl][i], Rank(lib, tmpl))
      {
        var target := Target(pages[tmpl][i]);
        if target.Some? && target.value in pages {
          assert Edge(pages, tmpl, target.value);
        }
      }
    }
  }

  lemma {:induction false} RanksFall(lib: Library, p: seq<string>, n: nat)
    requires Ranked(lib) && Path(lib.pages, p) && n < |p|
    ensures n > 0 ==> Rank(lib, p[n]) < Rank(lib, p[0])
  {
    if n > 0 {
      RanksFall(lib, p, n - 1);
      assert Edge(lib.pages, p[n - 1], p[n - 1 + 1]);
      var i :| 0 <= i < |lib.pages[p[n - 1]]| && Target(lib.pages[p[n - 1]][i]) == Some(p[n]);
      assert Below(lib, lib.pages[p[n - 1]][i], Rank(lib, p[n - 1]));
    }
  }

  /** Ranks for a set of templates: one that includes none of the others comes
      first. */
  lemma {:induction false} Order(pages: map<string, seq<Item>>, left: set<string>) returns (rank: map<string, nat>)
    requires left <= pages.Keys && !exists p :: Cycle(pages, p)
    ensures rank.Keys == left
    ensures forall t, u :: t in left && u in left && Edge(pages, t, u) ==> rank[u] < rank[t]
    decreases |left|
  {
    if left == {} {
      return map[];
    }
    var sink := Sink(pages, left);
    var above := Order(pages, left - {sink});
    rank := map t | t in left :: if t == sink then 0 else above[t] + 1;
  }

  /** If every template includes another one of the set, some walk closes. */
  lemma SuccessorsCycle(pages: map<string, seq<Item>>, left: set<string>)
    requires left != {}
    requires forall t {:trigger HasSuccessor(pages, left, t)} :: t in left ==> HasSuccessor(pages, left, t)
    ensures exists p :: Cycle(pages, p)
  {
    var p := Walk(pages, left, |left| + 1);
    var i, j := Repeat(p, left);
    var c := p[i..j + 1];
    forall k | 0 <= k < |c| - 1
      ensures Edge(pages, c[k], c[k + 1])
    {
      assert Edge(pages, p[i + k], p[i + k + 1]);
    }
    assert Cycle(pages, c);
  }

  lemma Sink(pages: map<string, seq<Item>>, left: set<string>) returns (sink: string)
    requires left != {} && !exists p :: Cycle(pages, p)
    ensures sink in left && forall u :: u in left ==> !Edge(pages, sink, u)
  {
    if forall t {:trigger HasSuccessor(pages, left, t)} :: t in left ==> HasSuccessor(pages, left, t) {
      SuccessorsCycle(pages, left);
    }
    sink :| sink in left && !HasSuccessor(pages, left, sink);
  }

  lemma {:induction false} Walk(pages: map<string, seq<Item>>, left: set<string>, n: nat) returns (p: seq<string>)
    requires n > 0 && left != {}
    requires forall t {:trigger HasSuccessor(pages, left, t)} :: t in left ==> HasSuccessor(pages, left, t)
    ensures |p| == n && Path(pages, p) && forall i :: 0 <= i < n ==> p[i] in left
  {
    if n == 1 {
      var t :| t in left;
      return [t];
    }
    var q := Walk(pages, left, n - 1);
    assert HasSuccessor(pages, left, q[n - 2]);
    var u :| u in left && Edge(pages, q[n - 2], u);
    p := q + [u];
    forall k | 0 <= k < |p| - 1
      ensures Edge(pages, p[k], p[k + 1])
    {
      assert k < n - 2 ==> Edge(pages, q[k], q[k + 1]);
    }
  }

  /** A walk longer than the set it stays in visits a template twice. */
  lemma {:induction false} Repeat(p: seq<string>, left: set<string>) returns (i: nat, j: nat)
    requires |p| > |left| && forall k :: 0 <= k < |p| ==> p[k] in left
    ensures i < j < |p| && p[i] == p[j]
    decreases |left|
  {
    var last := |p| - 1;
    if k :| 0 <= k < last && p[k] == p[last] {
      return k, last;
    }
    assert |left - {p[last]}| == |left| - 1;
    i, j := Repeat(p[..last], left - {p[last]});
  }
}
