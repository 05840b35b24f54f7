/** The condition stack of a template parser (parse.h). */
module Parse {
  import opened Basics

  const COND_STACK_DEPTH := 10

  predicate AllTrue(stack: seq<bool>)
  {
    forall i :: 0 <= i < |stack| ==> stack[i]
  }

  class ParserOutput {
    const condStack: array<bool>
    var condStackUse: int

    ghost predicate Valid()
      reads this
    {
      condStack.Length == COND_STACK_DEPTH && -1 <= condStackUse < COND_STACK_DEPTH
    }

    /** The open conditions, outermost first. */
    ghost function Stack(): (s: seq<bool>)
      requires Valid()
      reads this, condStack
      ensures |s| == condStackUse + 1
    {
      condStack[..condStackUse + 1]
    }

    /** The initialisation in render_page. */
    constructor ()
      ensures Valid() && fresh(condStack) && Stack() == []
    {
      condStack := new bool[COND_STACK_DEPTH];
      condStackUse := -1;
    }

    method CondValue() returns (r: bool)
      requires Valid()
      ensures r == AllTrue(Stack())
    {
      var i := 0;
      while i <= condStackUse
        invariant 0 <= i <= condStackUse + 1
        invariant forall j :: 0 <= j < i ==> condStack[j]
      {
        if !condStack[i] {
          assert !Stack()[i];
          return false;
        }
        i := i + 1;
      }
      return true;
    }

    /** The assertion of the source, `condStackUse < COND_STACK_DEPTH`, is
        checked before the index moves and so is weaker than this
        precondition; see TemplateOverruns.AssertionAdmitsOneLevelTooMany. */
    method CondIf(val: bool)
      requires Valid() && condStackUse + 1 < COND_STACK_DEPTH
      modifies this, condStack
      ensures Valid() && Stack() == old(Stack()) + [val]
    {
      condStackUse := condStackUse + 1;
      condStack[condStackUse] := val;
    }

    method CondElse()
      requires Valid() && condStackUse >= 0
      modifies condStack
      ensures Valid() && Stack() == DropLast(old(Stack())) + [!Last(old(Stack()))]
    {
      condStack[condStackUse] := !condStack[condStackUse];
    }

    method CondEndif()
      requires Valid() && condStackUse >= 0
      modifies this
      ensures Valid() && Stack() == DropLast(old(Stack()))
    {
      condStackUse := condStackUse - 1;
    }
  }
}
