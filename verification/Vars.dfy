/**
 The template variables of a request (vars.c): a stack of scopes, each a
 name-value list.  Setters write to the innermost scope and lookups search from
 the innermost scope outwards.
 */
module Vars {
  import opened Basics

  const VAR_MAX_SCOPES := 10

  datatype Val =
    | Str(s: string)
    | Int(i: nat)
    | Arr(items: seq<Val>)
    | Nvl(pairs: map<string, Val>)
    | OtherVal

  type Scope = map<string, Val>

  function Lookup(scopes: seq<Scope>, name: string): Option<Val>
  {
    if scopes == [] then None
    else if name in Last(scopes) then Some(Last(scopes)[name])
    else Lookup(DropLast(scopes), name)
  }

  /** The scope that binds the name, with no scope inside it that does. */
  predicate Innermost(scopes: seq<Scope>, name: string, i: nat)
  {
    i < |scopes| && name in scopes[i] && forall j :: i < j < |scopes| ==> name !in scopes[j]
  }

  /** A lookup finds what the innermost scope with the name binds it to. */
  lemma {:induction false} LookupInnermost(scopes: seq<Scope>, name: string)
    ensures Lookup(scopes, name).None? <==> forall i :: 0 <= i < |scopes| ==> name !in scopes[i]
    ensures forall i: nat :: Innermost(scopes, name, i) ==> Lookup(scopes, name) == Some(scopes[i][name])
    ensures Lookup(scopes, name).Some? ==> exists i: nat :: Innermost(scopes, name, i)
  {
    if scopes != [] {
      var outer, last := DropLast(scopes), |scopes| - 1;
      if name in scopes[last] {
        assert Innermost(scopes, name, last);
      } else {
        LookupInnermost(outer, name);
        assert forall i :: 0 <= i < last ==> outer[i] == scopes[i];
        forall i: nat | i < last
          ensures Innermost(scopes, name, i) <==> Innermost(outer, name, i)
        {
          assert forall j :: i < j < |scopes| ==> j == last || outer[j] == scopes[j];
        }
      }
    }
  }

  /** A binding hides those of the same name outside, and no others. */
  lemma InnerHides(scopes: seq<Scope>, scope: Scope, name: string)
    ensures name in scope ==> Lookup(scopes + [scope], name) == Some(scope[name])
    ensures name !in scope ==> Lookup(scopes + [scope], name) == Lookup(scopes, name)
  {
    assert DropLast(scopes + [scope]) == scopes;
  }

  class Vars {
    const scopes: array<Scope>
    var cur: int
    /** The largest value `cur` ever had. */
    ghost var peak: int

    ghost predicate Valid()
      reads this
    {
      InBounds() && 0 <= cur
    }

    /** The pop of the outermost scope passes through `cur == -1`. */
    ghost predicate InBounds()
      reads this
    {
      scopes.Length == VAR_MAX_SCOPES && -1 <= cur <= peak < VAR_MAX_SCOPES
    }

    /** The live scopes, outermost first. */
    function Scopes(): (s: seq<Scope>)
      requires Valid()
      reads this, scopes
      ensures |s| == cur + 1
    {
      scopes[..cur + 1]
    }

    constructor ()
      ensures Valid() && fresh(scopes)
      ensures Scopes() == [map[]] && peak == 0
    {
      scopes := new Scope[VAR_MAX_SCOPES](_ => map[]);
      cur, peak := 0, 0;
    }

    /** vars_scope_push; the precondition is its assertion. */
    method ScopePush()
      requires InBounds() && cur + 1 < VAR_MAX_SCOPES
      modifies this, scopes
      ensures Valid() && Scopes() == old(scopes[..cur + 1]) + [map[]]
      ensures peak == if old(peak) < cur then cur else old(peak)
    {
      cur := cur + 1;
      if peak < cur {
        peak := cur;
      }
      scopes[cur] := map[];
    }

    /** vars_scope_pop: popping the outermost scope replaces it by an empty one. */
    method ScopePop()
      requires Valid()
      modifies this, scopes
      ensures Valid() && peak == old(peak)
      ensures Scopes() == if old(cur) > 0 then DropLast(old(Scopes())) else [map[]]
    {
      cur := cur - 1;
      if cur < 0 {
        ScopePush();
      }
    }

    method SetStr(name: string, val: string)
      requires Valid()
      modifies scopes
      ensures Scopes() == DropLast(old(Scopes())) + [Last(old(Scopes()))[name := Str(val)]]
    {
      scopes[cur] := scopes[cur][name := Str(val)];
    }

    method Merge(items: Scope)
      requires Valid()
      modifies scopes
      ensures Scopes() == DropLast(old(Scopes())) + [Last(old(Scopes())) + items]
    {
      scopes[cur] := scopes[cur] + items;
    }

    method LookupVar(name: string) returns (r: Option<Val>)
      requires Valid()
      ensures r == Lookup(Scopes(), name)
      ensures r.None? <==> forall i :: 0 <= i <= cur ==> name !in scopes[i]
      ensures r.Some? ==> exists i: nat :: Innermost(Scopes(), name, i) && r.value == scopes[i][name]
    {
      LookupInnermost(Scopes(), name);
      var scope := cur;
      assert scopes[..scope + 1] == Scopes();
      while scope >= 0
        invariant -1 <= scope <= cur
        invariant Lookup(Scopes(), name) == Lookup(scopes[..scope + 1], name)
      {
        if name in scopes[scope] {
          return Some(scopes[scope][name]);
        }
        assert DropLast(scopes[..scope + 1]) == scopes[..scope];
        scope := scope - 1;
      }
      return None;
    }
  }
}
