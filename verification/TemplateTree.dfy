/**
 The reference meaning of templates.  A page is a tree in which an `if` holds
 its branches, separated by `else`s, and evaluation follows the tree: a branch
 that is not taken renders nothing.  The main theorem is that the one-pass
 evaluator of module Template, which sees only the flat sequence of items and a
 stack of booleans, computes the same for every well-nested page.
 */
module TemplateTree {
  import opened Basics
  import opened Vars
  import opened Parse
  import opened Template

  /** A page as a tree; the delimiters of an `if` are kept with it. */
  datatype Forest =
    | Nil
    | Leaf(item: Item, rest: Forest)
    | If(test: Item, arms: Arms, rest: Forest)

  /** The branches of an `if`; there may be any number of `else`s. */
  datatype Arms =
    | Closing(body: Forest, endif: Item)
    | Alternative(body: Forest, els: Item, more: Arms)

  predicate IsControl(item: Item)
  {
    IsTest(item) || IsElse(item) || IsEndif(item)
  }

  predicate Proper(f: Forest)
  {
    match f
    case Nil => true
    case Leaf(item, rest) => !IsControl(item) && Proper(rest)
    case If(test, arms, rest) => IsTest(test) && ProperArms(arms) && Proper(rest)
  }

  predicate ProperArms(arms: Arms)
  {
    match arms
    case Closing(body, endif) => Proper(body) && IsEndif(endif)
    case Alternative(body, els, more) => Proper(body) && IsElse(els) && ProperArms(more)
  }

  function Flatten(f: Forest): seq<Item>
  {
    match f
    case Nil => []
    case Leaf(item, rest) => [item] + Flatten(rest)
    case If(test, arms, rest) => [test] + FlattenArms(arms) + Flatten(rest)
  }

  function FlattenArms(arms: Arms): seq<Item>
  {
    match arms
    case Closing(body, endif) => Flatten(body) + [endif]
    case Alternative(body, els, more) => Flatten(body) + [els] + FlattenArms(more)
  }

  datatype TreeLibrary = TreeLibrary(pages: map<string, Forest>, rank: map<string, nat>)

  function FlattenLibrary(lib: TreeLibrary): Library
  {
    Library(map tmpl | tmpl in lib.pages :: Flatten(lib.pages[tmpl]), lib.rank)
  }

  predicate ForestBelow(lib: Library, f: Forest, level: nat)
  {
    match f
    case Nil => true
    case Leaf(item, rest) => Below(lib, item, level) && ForestBelow(lib, rest, level)
    case If(_, arms, rest) => ArmsBelow(lib, arms, level) && ForestBelow(lib, rest, level)
  }

  predicate ArmsBelow(lib: Library, arms: Arms, level: nat)
  {
    match arms
    case Closing(body, _) => ForestBelow(lib, body, level)
    case Alternative(body, _, more) => ForestBelow(lib, body, level) && ArmsBelow(lib, more, level)
  }

  /** Well-formed trees without include cycles. */
  ghost predicate TreeRanked(lib: TreeLibrary)
  {
    forall tmpl :: tmpl in lib.pages ==>
      Proper(lib.pages[tmpl]) &&
      ForestBelow(FlattenLibrary(lib), lib.pages[tmpl], Rank(FlattenLibrary(lib), tmpl))
  }

  // ----- Evaluation of trees ------------------------------------------------------

  function Seq(a: Result<string>, b: Result<string>): Result<string>
  {
    if a.Panic? then a else if b.Panic? then b else Ok(a.value + b.value)
  }

  function Eval(sys: Sys, lib: TreeLibrary, ghost level: nat, scopes: seq<Scope>, f: Forest): Result<string>
    requires TreeRanked(lib) && Proper(f) && ForestBelow(FlattenLibrary(lib), f, level)
    decreases level + 1, 1, f
  {
    match f
    case Nil => Ok("")
    case Leaf(item, rest) =>
      Seq(EvalLeaf(sys, lib, level, scopes, item), Eval(sys, lib, level, scopes, rest))
    case If(test, arms, rest) =>
      match Test(sys, scopes, test)
      case Panic(fault) => Panic(fault)
      case Ok(taken) =>
        Seq(EvalArms(sys, lib, level, scopes, arms, taken), Eval(sys, lib, level, scopes, rest))
  }

  /** Renders the first, third, ... branch if the condition holds and the
      second, fourth, ... otherwise. */
  function EvalArms(sys: Sys, lib: TreeLibrary, ghost level: nat, scopes: seq<Scope>,
                    arms: Arms, taken: bool): Result<string>
    requires TreeRanked(lib) && ProperArms(arms) && ArmsBelow(FlattenLibrary(lib), arms, level)
    decreases level + 1, 1, arms
  {
    var thisArm :=
      if taken then Eval(sys, lib, level, scopes, arms.body) else Skip(sys, scopes, arms.body);
    match arms
    case Closing(_, _) => thisArm
    case Alternative(_, _, more) => Seq(thisArm, EvalArms(sys, lib, level, scopes, more, !taken))
  }

  /** A branch that is not taken renders nothing, but a condition in it that
      cannot be evaluated still aborts. */
  function Skip(sys: Sys, scopes: seq<Scope>, f: Forest): Result<string>
    requires Proper(f)
  {
    match f
    case Nil => Ok("")
    case Leaf(item, rest) =>
      if item.Func? then Panic(NoSuchFunction) else Skip(sys, scopes, rest)
    case If(test, arms, rest) =>
      match Test(sys, scopes, test)
      case Panic(fault) => Panic(fault)
      case Ok(_) => Seq(SkipArms(sys, scopes, arms), Skip(sys, scopes, rest))
  }

  function SkipArms(sys: Sys, scopes: seq<Scope>, arms: Arms): Result<string>
    requires ProperArms(arms)
  {
    match arms
    case Closing(body, _) => Skip(sys, scopes, body)
    case Alternative(body, _, more) => Seq(Skip(sys, scopes, body), SkipArms(sys, scopes, more))
  }

  function EvalLeaf(sys: Sys, lib: TreeLibrary, ghost level: nat, scopes: seq<Scope>, item: Item): Result<string>
    requires TreeRanked(lib) && !IsControl(item) && Below(FlattenLibrary(lib), item, level)
    decreases level + 1, 0
  {
    match item
    case Text(s) => Ok(s)
    case Pipe(name, stages) => PipeOut(sys, scopes, name, stages)
    case Func(_, _, _) => Panic(NoSuchFunction)
    case Var(name) =>
      (match Lookup(scopes, name)
       case Some(val) => Print(val)
       case None => EvalTemplate(sys, lib, scopes, name))
    case Foreach(name, tmpl) =>
      match Lookup(scopes, name)
      case None => Ok("")
      case Some(Arr(vals)) => EvalLoop(sys, lib, scopes, name, vals, tmpl)
      case Some(_) => Panic(NotAnArray)
  }

  function EvalTemplate(sys: Sys, lib: TreeLibrary, scopes: seq<Scope>, tmpl: string): Result<string>
    requires TreeRanked(lib)
    decreases Height(FlattenLibrary(lib), tmpl), 2
  {
    if tmpl in lib.pages then
      Eval(sys, lib, Rank(FlattenLibrary(lib), tmpl), scopes, lib.pages[tmpl])
    else Ok("")
  }

  /** In-order concatenation of the template rendered once per loop item, each
      time in the surrounding scopes extended by that item's bindings. */
  function EvalLoop(sys: Sys, lib: TreeLibrary, scopes: seq<Scope>,
                    name: string, vals: seq<Val>, tmpl: string): Result<string>
    requires TreeRanked(lib)
    decreases Height(FlattenLibrary(lib), tmpl), 3, |vals|
  {
    if vals == [] then Ok("")
    else if |scopes| >= VAR_MAX_SCOPES then Panic(TooManyScopes)
    else
      match ItemScope(name, vals[0])
      case Panic(f) => Panic(f)
      case Ok(scope) =>
        Seq(EvalTemplate(sys, lib, scopes + [scope], tmpl),
            EvalLoop(sys, lib, scopes, name, vals[1..], tmpl))
  }

  // ----- The one-pass evaluator refines the tree ------------------------------------

  lemma {:induction false} BelowFlattened(lib: Library, f: Forest, level: nat)
    requires Proper(f)
    ensures ForestBelow(lib, f, level) <==> AllBelow(lib, Flatten(f), level)
  {
    match f
    case Nil =>
    case Leaf(item, rest) =>
      BelowFlattened(lib, rest, level);
      BelowConcat(lib, [item], Flatten(rest), level);
      assert AllBelow(lib, [item], level) <==> Below(lib, [item][0], level);
    case If(test, arms, rest) =>
      BelowFlattenedArms(lib, arms, level);
      BelowFlattened(lib, rest, level);
      BelowConcat(lib, [test] + FlattenArms(arms), Flatten(rest), level);
      BelowConcat(lib, [test], FlattenArms(arms), level);
      assert Below(lib, test, level);
  }

  lemma {:induction false} BelowFlattenedArms(lib: Library, arms: Arms, level: nat)
    requires ProperArms(arms)
    ensures ArmsBelow(lib, arms, level) <==> AllBelow(lib, FlattenArms(arms), level)
  {
    BelowFlattened(lib, arms.body, level);
    match arms
    case Closing(body, endif) =>
      BelowConcat(lib, Flatten(body), [endif], level);
    case Alternative(body, els, more) =>
      BelowFlattenedArms(lib, more, level);
      BelowConcat(lib, Flatten(body) + [els], FlattenArms(more), level);
      BelowConcat(lib, Flatten(body), [els], level);
  }

  lemma BelowConcat(lib: Library, a: seq<Item>, b: seq<Item>, level: nat)
    ensures AllBelow(lib, a + b, level) <==> AllBelow(lib, a, level) && AllBelow(lib, b, level)
  {
    if AllBelow(lib, a + b, level) {
      assert forall i :: 0 <= i < |a| ==> a[i] == (a + b)[i];
      assert forall i :: 0 <= i < |b| ==> b[i] == (a + b)[|a| + i];
    }
  }

  lemma RankedFlattened(lib: TreeLibrary)
    requires TreeRanked(lib)
    ensures Ranked(FlattenLibrary(lib))
  {
    var flat := FlattenLibrary(lib);
    forall tmpl | tmpl in flat.pages
      ensures AllBelow(flat, flat.pages[tmpl], Rank(flat, tmpl))
    {
      BelowFlattened(flat, lib.pages[tmpl], Rank(flat, tmpl));
    }
  }

  /** The outcome of a subtree followed by the rest of the page. */
  function Continue(sys: Sys, lib: Library, ghost level: nat, scopes: seq<Scope>, r: Result<string>,
                    items: seq<Item>, stack: seq<bool>, out: string): Result<string>
    requires Ranked(lib) && AllBelow(lib, items, level)
  {
    match r
    case Ok(s) => Run(sys, lib, level, scopes, items, stack, out + s)
    case Panic(f) => Panic(f)
  }

  /** Running the items of a subtree adds its value to the output and leaves the
      condition stack as it was. */
  lemma {:induction false} RunForest(sys: Sys, lib: TreeLibrary, level: nat, scopes: seq<Scope>, f: Forest,
                                     items: seq<Item>, stack: seq<bool>, out: string)
    requires TreeRanked(lib) && Proper(f) && ForestBelow(FlattenLibrary(lib), f, level)
    requires AllBelow(FlattenLibrary(lib), items, level)
    ensures Ranked(FlattenLibrary(lib)) && AllBelow(FlattenLibrary(lib), Flatten(f) + items, level)
    ensures Run(sys, FlattenLibrary(lib), level, scopes, Flatten(f) + items, stack, out)
         == Continue(sys, FlattenLibrary(lib), level, scopes,
                     if AllTrue(stack) then Eval(sys, lib, level, scopes, f) else Skip(sys, scopes, f),
                     items, stack, out)
    decreases level + 1, 1, f
  {
    var flat := FlattenLibrary(lib);
    RankedFlattened(lib);
    BelowFlattened(flat, f, level);
    BelowConcat(flat, Flatten(f), items, level);
    match f
    case Nil =>
      assert Flatten(f) + items == items;
      assert out + "" == out;
    case Leaf(item, rest) =>
      BelowFlattened(flat, rest, level);
      var all := Flatten(f) + items;
      assert all[0] == item && all[1..] == Flatten(rest) + items;
      if item.Func? {
        assert !IsControl(item);
      } else if AllTrue(stack) {
        EmitLeaf(sys, lib, level, scopes, item);
        var r := EvalLeaf(sys, lib, level, scopes, item);
        if r.Ok? {
          RunForest(sys, lib, level, scopes, rest, items, stack, out + r.value);
          AppendAssoc(out, r, Eval(sys, lib, level, scopes, rest));
        }
      } else {
        RunForest(sys, lib, level, scopes, rest, items, stack, out);
      }
    case If(test, arms, rest) =>
      BelowFlattened(flat, rest, level);
      BelowConcat(flat, Flatten(rest), items, level);
      var all := Flatten(f) + items;
      var after := Flatten(rest) + items;
      assert all[0] == test && all[1..] == FlattenArms(arms) + after;
      match Test(sys, scopes, test)
      case Panic(_) =>
      case Ok(taken) =>
        RunArms(sys, lib, level, scopes, arms, taken, after, stack, out);
        var r := if AllTrue(stack) then EvalArms(sys, lib, level, scopes, arms, taken)
                 else SkipArms(sys, scopes, arms);
        if r.Ok? {
          RunForest(sys, lib, level, scopes, rest, items, stack, out + r.value);
          AppendAssoc(out, r, if AllTrue(stack) then Eval(sys, lib, level, scopes, rest)
                              else Skip(sys, scopes, rest));
        }
  }

  lemma {:induction false} RunArms(sys: Sys, lib: TreeLibrary, level: nat, scopes: seq<Scope>, arms: Arms, taken: bool,
                                   items: seq<Item>, stack: seq<bool>, out: string)
    requires TreeRanked(lib) && ProperArms(arms) && ArmsBelow(FlattenLibrary(lib), arms, level)
    requires AllBelow(FlattenLibrary(lib), items, level)
    ensures Ranked(FlattenLibrary(lib)) && AllBelow(FlattenLibrary(lib), FlattenArms(arms) + items, level)
    ensures Run(sys, FlattenLibrary(lib), level, scopes, FlattenArms(arms) + items, stack + [taken], out)
         == Continue(sys, FlattenLibrary(lib), level, scopes,
                     if AllTrue(stack) then EvalArms(sys, lib, level, scopes, arms, taken)
                     else SkipArms(sys, scopes, arms),
                     items, stack, out)
    decreases level + 1, 1, arms
  {
    var flat := FlattenLibrary(lib);
    RankedFlattened(lib);
    BelowFlattenedArms(flat, arms, level);
    BelowConcat(flat, FlattenArms(arms), items, level);
    var open := stack + [taken];
    TopOfStack(stack, taken);
    match arms
    case Closing(body, endif) =>
      var after := [endif] + items;
      BelowConcat(flat, [endif], items, level);
      assert FlattenArms(arms) + items == Flatten(body) + after;
      RunForest(sys, lib, level, scopes, body, after, open, out);
      assert after[1..] == items;
    case Alternative(body, els, more) =>
      var last := FlattenArms(more) + items;
      var after := [els] + last;
      assert FlattenArms(arms) + items == Flatten(body) + after;
      assert after[1..] == last;
      BelowConcat(flat, Flatten(body), after, level);
      BelowConcat(flat, [els], last, level);
      RunForest(sys, lib, level, scopes, body, after, open, out);
      var r := if AllTrue(open) then Eval(sys, lib, level, scopes, body) else Skip(sys, scopes, body);
      if r.Ok? {
        RunArms(sys, lib, level, scopes, more, !taken, items, stack, out + r.value);
        AppendAssoc(out, r, if AllTrue(stack) then EvalArms(sys, lib, level, scopes, more, !taken)
                            else SkipArms(sys, scopes, more));
      }
  }

  lemma TopOfStack(stack: seq<bool>, top: bool)
    ensures AllTrue(stack + [top]) <==> AllTrue(stack) && top
    ensures DropLast(stack + [top]) == stack && Last(stack + [top]) == top
  {
    var open := stack + [top];
    assert open[|stack|] == top;
    assert forall i :: 0 <= i < |stack| ==> open[i] == stack[i];
  }

  lemma AppendAssoc(out: string, a: Result<string>, b: Result<string>)
    requires a.Ok?
    ensures Seq(a, b).Ok? ==> b.Ok? && out + Seq(a, b).value == out + a.value + b.value
    ensures Seq(a, b).Panic? ==> b == Seq(a, b)
  {}

  lemma {:induction false} EmitLeaf(sys: Sys, lib: TreeLibrary, level: nat, scopes: seq<Scope>, item: Item)
    requires TreeRanked(lib) && !item.Func? && Below(FlattenLibrary(lib), item, level)
    ensures Ranked(FlattenLibrary(lib))
    ensures Emit(sys, FlattenLibrary(lib), level, scopes, item) == EvalLeaf(sys, lib, level, scopes, item)
    decreases level + 1, 0
  {
    RankedFlattened(lib);
    match item
    case Var(name) => TemplateRefines(sys, lib, scopes, name);
    case Foreach(name, tmpl) =>
      var val := Lookup(scopes, name);
      if val.Some? && val.value.Arr? {
        LoopRefines(sys, lib, scopes, name, val.value.items, tmpl);
      }
    case _ =>
  }

  lemma {:induction false} TemplateRefines(sys: Sys, lib: TreeLibrary, scopes: seq<Scope>, tmpl: string)
    requires TreeRanked(lib)
    ensures Ranked(FlattenLibrary(lib))
    ensures RenderTemplate(sys, FlattenLibrary(lib), scopes, tmpl) == EvalTemplate(sys, lib, scopes, tmpl)
    decreases Height(FlattenLibrary(lib), tmpl), 3
  {
    RankedFlattened(lib);
    if tmpl in lib.pages {
      PageRefines(sys, lib, Rank(FlattenLibrary(lib), tmpl), scopes, lib.pages[tmpl]);
    }
  }

  lemma {:induction false} LoopRefines(sys: Sys, lib: TreeLibrary, scopes: seq<Scope>,
                                       name: string, vals: seq<Val>, tmpl: string)
    requires TreeRanked(lib)
    ensures Ranked(FlattenLibrary(lib))
    ensures RenderLoop(sys, FlattenLibrary(lib), scopes, name, vals, tmpl)
         == EvalLoop(sys, lib, scopes, name, vals, tmpl)
    decreases Height(FlattenLibrary(lib), tmpl), 4, |vals|
  {
    RankedFlattened(lib);
    if vals != [] && |scopes| < VAR_MAX_SCOPES {
      var scope := ItemScope(name, vals[0]);
      if scope.Ok? {
        TemplateRefines(sys, lib, scopes + [scope.value], tmpl);
        LoopRefines(sys, lib, scopes, name, vals[1..], tmpl);
      }
    }
  }

  /** The refinement theorem: for any variables, any include structure without
      cycles and any number of `else`s, one pass over the flat page computes
      what the tree means, including which pages abort. */
  lemma {:induction false} PageRefines(sys: Sys, lib: TreeLibrary, level: nat, scopes: seq<Scope>, f: Forest)
    requires TreeRanked(lib) && Proper(f) && ForestBelow(FlattenLibrary(lib), f, level)
    ensures Ranked(FlattenLibrary(lib)) && AllBelow(FlattenLibrary(lib), Flatten(f), level)
    ensures RenderPage(sys, FlattenLibrary(lib), level, scopes, Flatten(f))
         == Eval(sys, lib, level, scopes, f)
    decreases level + 1, 2
  {
    var flat := FlattenLibrary(lib);
    RunForest(sys, lib, level, scopes, f, [], [], "");
    assert Flatten(f) + [] == Flatten(f);
    var r := Eval(sys, lib, level, scopes, f);
    if r.Ok? {
      assert "" + r.value == r.value;
    }
  }
}
