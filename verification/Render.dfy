/**
 The grammar actions of template.y and the functions of render.c as they run:
 one pass over the page, a fresh condition stack per template, and one variable
 stack shared by everything that is rendered.
 */
module Render {
  import opened Basics
  import opened Vars
  import opened Parse
  import opened Template
  import opened TemplateNesting

  // ----- Scope bound ------------------------------------------------------------------

  /** The longest chain of `foreach` commands below a page, along includes. */
  function Chain(lib: Library, ghost level: nat, items: seq<Item>): nat
    requires Ranked(lib) && AllBelow(lib, items, level)
    decreases level + 1, 1, |items|
  {
    if items == [] then 0
    else Max(ItemChain(lib, level, items[0]), Chain(lib, level, items[1..]))
  }

  function ItemChain(lib: Library, ghost level: nat, item: Item): nat
    requires Ranked(lib) && Below(lib, item, level)
    decreases level + 1, 0, 0
  {
    match item
    case Var(name) => TemplateChain(lib, name)
    case Foreach(_, tmpl) => 1 + TemplateChain(lib, tmpl)
    case _ => 0
  }

  function TemplateChain(lib: Library, tmpl: string): nat
    requires Ranked(lib)
    decreases Height(lib, tmpl), 2, 0
  {
    if tmpl in lib.pages then Chain(lib, Rank(lib, tmpl), lib.pages[tmpl]) else 0
  }

  lemma {:induction false} ChainCoversItem(lib: Library, level: nat, items: seq<Item>, i: nat)
    requires Ranked(lib) && AllBelow(lib, items, level) && i < |items|
    ensures ItemChain(lib, level, items[i]) <= Chain(lib, level, items)
  {
    if i > 0 {
      ChainCoversItem(lib, level, items[1..], i - 1);
    }
  }

  // ----- Enough scopes ----------------------------------------------------------------

  const OVERFLOW: Result<string> := Panic(TooManyScopes)

  lemma {:induction false} StagesNeedNoScope(sys: Sys, stages: seq<string>, val: Val)
    ensures ApplyStages(sys, stages, val) != Panic(TooManyScopes)
  {
    if stages != [] && ApplyStage(sys, StageOf(stages[0]), val).Ok? {
      StagesNeedNoScope(sys, stages[1..], ApplyStage(sys, StageOf(stages[0]), val).value);
    }
  }

  lemma {:induction false} RunScopes(sys: Sys, lib: Library, level: nat, scopes: seq<Scope>,
                                     items: seq<Item>, stack: seq<bool>, out: string)
    requires Ranked(lib) && AllBelow(lib, items, level)
    requires |scopes| + Chain(lib, level, items) <= VAR_MAX_SCOPES
    ensures Run(sys, lib, level, scopes, items, stack, out) != OVERFLOW
    decreases level + 1, 1, |items|
  {
    hide Emit, AllTrue;
    if items != [] {
      var item, rest := items[0], items[1..];
      if item.Func? {
        var next := NextStack(sys, scopes, item, stack);
        if next.Ok? {
          RunScopes(sys, lib, level, scopes, rest, next.value, out);
        }
      } else if !AllTrue(stack) {
        RunScopes(sys, lib, level, scopes, rest, stack, out);
      } else {
        EmitScopes(sys, lib, level, scopes, item);
        var text := Emit(sys, lib, level, scopes, item);
        if text.Ok? {
          RunScopes(sys, lib, level, scopes, rest, stack, out + text.value);
        }
      }
    }
  }

  lemma {:induction false} EmitScopes(sys: Sys, lib: Library, level: nat, scopes: seq<Scope>, item: Item)
    requires Ranked(lib) && Below(lib, item, level) && !item.Func?
    requires |scopes| + ItemChain(lib, level, item) <= VAR_MAX_SCOPES
    ensures Emit(sys, lib, level, scopes, item) != OVERFLOW
    decreases level + 1, 0, 0
  {
    match item
    case Text(s) =>
    case Pipe(name, stages) =>
      var val := Lookup(scopes, name);
      if val.Some? {
        StagesNeedNoScope(sys, stages, val.value);
      }
    case Var(name) => TemplateScopes(sys, lib, scopes, name);
    case Foreach(name, tmpl) =>
      var val := Lookup(scopes, name);
      if val.Some? && val.value.Arr? {
        LoopScopes(sys, lib, scopes, name, val.value.items, tmpl);
      }
  }

  lemma {:induction false} TemplateScopes(sys: Sys, lib: Library, scopes: seq<Scope>, tmpl: string)
    requires Ranked(lib) && |scopes| + TemplateChain(lib, tmpl) <= VAR_MAX_SCOPES
    ensures RenderTemplate(sys, lib, scopes, tmpl) != OVERFLOW
    decreases Height(lib, tmpl), 2, 0
  {
    if tmpl in lib.pages {
      RunScopes(sys, lib, Rank(lib, tmpl), scopes, lib.pages[tmpl], [], "");
    }
  }

  lemma {:induction false} LoopScopes(sys: Sys, lib: Library, scopes: seq<Scope>,
                                      name: string, vals: seq<Val>, tmpl: string)
    requires Ranked(lib) && |scopes| + 1 + TemplateChain(lib, tmpl) <= VAR_MAX_SCOPES
    ensures RenderLoop(sys, lib, scopes, name, vals, tmpl) != OVERFLOW
    decreases Height(lib, tmpl), 3, |vals|
  {
    if vals != [] {
      var scope := ItemScope(name, vals[0]);
      if scope.Ok? {
        TemplateScopes(sys, lib, scopes + [scope.value], tmpl);
        LoopScopes(sys, lib, scopes, name, vals[1..], tmpl);
      }
    }
  }

  /** The assertion of vars_scope_push holds throughout a page whose loops nest no
      deeper, along includes, than there are scopes left. */
  lemma ScopesSuffice(sys: Sys, lib: Library, level: nat, scopes: seq<Scope>, items: seq<Item>)
    requires Ranked(lib) && AllBelow(lib, items, level)
    requires |scopes| + Chain(lib, level, items) <= VAR_MAX_SCOPES
    ensures RenderPage(sys, lib, level, scopes, items) != OVERFLOW
  {
    RunScopes(sys, lib, level, scopes, items, [], "");
  }

  /** What rendering with scope need `need` does to the variables: nothing
      remains, and the depth in between is bounded. */
  twostate predicate Framed(vars: Vars, ok: bool, need: nat)
    reads vars, vars.scopes
  {
    && vars.Valid()
    && (ok ==> old(vars.Valid()) && vars.Scopes() == old(vars.Scopes()))
    && vars.peak <= Max(old(vars.peak), old(vars.cur) + need)
  }

  // ----- Actions ----------------------------------------------------------------------

  method PipestageAlloc(name: string) returns (stage: string)
    ensures stage == StageOf(name)
  {
    stage := "nop";
    for i := 0 to |STAGES|
      invariant name !in STAGES[..i] && stage == "nop"
    {
      if name == STAGES[i] {
        return STAGES[i];
      }
    }
  }

  method Pipeline(sys: Sys, vars: Vars, x: ParserOutput, name: string, stages: seq<string>)
    returns (r: Result<string>)
    requires vars.Valid() && x.Valid()
    ensures r == if AllTrue(x.Stack()) then PipeOut(sys, vars.Scopes(), name, stages) else Ok("")
  {
    var live := x.CondValue();
    if !live {
      return Ok("");
    }
    var pair := vars.LookupVar(name);
    if pair.None? {
      return Ok("");
    }
    var val := pair.value;
    if !val.Str? && !val.Int? {
      return Panic(NotPrintable);
    }
    var piped := RunStages(sys, stages, val);
    r := if piped.Ok? then Print(piped.value) else Panic(piped.fault);
  }

  /** The list_for_each over the stages of a pipeline. */
  method RunStages(sys: Sys, stages: seq<string>, val: Val) returns (r: Result<Val>)
    ensures r == ApplyStages(sys, stages, val)
  {
    var cur := val;
    for i := 0 to |stages|
      invariant ApplyStages(sys, stages, val) == ApplyStages(sys, stages[i..], cur)
    {
      var stage := PipestageAlloc(stages[i]);
      assert stages[i..][1..] == stages[i + 1..];
      var next := ApplyStage(sys, stage, cur);
      if next.Panic? {
        return Panic(next.fault);
      }
      cur := next.value;
    }
    return Ok(cur);
  }

  method Function(sys: Sys, vars: Vars, x: ParserOutput, item: Item) returns (fault: Option<Fault>)
    requires vars.Valid() && x.Valid() && item.Func?
    requires IsTest(item) ==> |x.Stack()| < COND_STACK_DEPTH
    modifies x, x.condStack
    ensures x.Valid()
    ensures match NextStack(sys, vars.Scopes(), item, old(x.Stack()))
            case Ok(next) => fault.None? && x.Stack() == next
            case Panic(f) => fault == Some(f)
  {
    if IsTest(item) {
      var result := Test(sys, vars.Scopes(), item);
      if result.Panic? {
        return Some(result.fault);
      }
      x.CondIf(result.value);
    } else if item.fxn == "endif" {
      if x.condStackUse < 0 {
        return Some(CondStackEmpty);
      }
      x.CondEndif();
    } else if item.fxn == "else" {
      if x.condStackUse < 0 {
        return Some(CondStackEmpty);
      }
      x.CondElse();
    } else {
      return Some(NoSuchFunction);
    }
    return None;
  }

  method Variable(sys: Sys, lib: Library, ghost level: nat, vars: Vars, x: ParserOutput, name: string)
    returns (r: Result<string>)
    requires Ranked(lib) && StacksFit(lib) && Below(lib, Var(name), level)
    requires vars.Valid() && x.Valid()
    modifies vars, vars.scopes
    ensures Framed(vars, r.Ok?, ItemChain(lib, level, Var(name)))
    ensures r == if AllTrue(x.Stack()) then Emit(sys, lib, level, old(vars.Scopes()), Var(name)) else Ok("")
    decreases level + 1, 0, 0
  {
    var live := x.CondValue();
    if !live {
      return Ok("");
    }
    var pair := vars.LookupVar(name);
    if pair.None? {
      r := RenderTemplateFile(sys, lib, vars, name);
    } else {
      r := Print(pair.value);
    }
  }

  method ForeachItems(sys: Sys, lib: Library, ghost level: nat, vars: Vars, x: ParserOutput,
                      name: string, tmpl: string) returns (r: Result<string>)
    requires Ranked(lib) && StacksFit(lib) && Below(lib, Foreach(name, tmpl), level)
    requires vars.Valid() && x.Valid()
    modifies vars, vars.scopes
    ensures Framed(vars, r.Ok?, ItemChain(lib, level, Foreach(name, tmpl)))
    ensures r == if AllTrue(x.Stack()) then Emit(sys, lib, level, old(vars.Scopes()), Foreach(name, tmpl))
                 else Ok("")
    decreases level + 1, 0, 0
  {
    var live := x.CondValue();
    if !live {
      return Ok("");
    }
    var pair := vars.LookupVar(name);
    if pair.None? {
      return Ok("");
    }
    if !pair.value.Arr? {
      return Panic(NotAnArray);
    }
    r := ForeachLoop(sys, lib, vars, name, pair.value.items, tmpl);
  }

  /** The bindings of one loop item, in a scope of their own. */
  method BindItem(vars: Vars, name: string, val: Val) returns (ok: bool)
    requires vars.Valid() && vars.cur + 1 < VAR_MAX_SCOPES
    modifies vars, vars.scopes
    ensures vars.Valid() && vars.peak == Max(old(vars.peak), old(vars.cur) + 1)
    ensures ok == ItemScope(name, val).Ok?
    ensures ok ==> vars.Scopes() == old(vars.Scopes()) + [ItemScope(name, val).value]
  {
    vars.ScopePush();
    match val {
      case Nvl(pairs) =>
        vars.Merge(pairs);
        assert map[] + pairs == pairs;
      case Str(s) =>
        vars.SetStr(name, s);
      case _ =>
        return false;
    }
    return true;
  }

  /** __foreach: a scope is pushed and popped for every item. */
  method ForeachLoop(sys: Sys, lib: Library, vars: Vars, name: string, vals: seq<Val>, tmpl: string)
    returns (r: Result<string>)
    requires Ranked(lib) && StacksFit(lib)
    requires vars.Valid()
    modifies vars, vars.scopes
    ensures Framed(vars, r.Ok?, 1 + TemplateChain(lib, tmpl))
    ensures r == RenderLoop(sys, lib, old(vars.Scopes()), name, vals, tmpl)
    decreases Height(lib, tmpl), 3, 0
  {
    ghost var scopes := vars.Scopes();
    var out := "";
    PrependNothing(RenderLoop(sys, lib, scopes, name, vals, tmpl));
    for i := 0 to |vals|
      invariant Framed(vars, true, 1 + TemplateChain(lib, tmpl))
      invariant RenderLoop(sys, lib, scopes, name, vals, tmpl)
             == Prepend(out, RenderLoop(sys, lib, scopes, name, vals[i..], tmpl))
    {
      LoopStep(sys, lib, scopes, name, vals, i, tmpl);
      if vars.cur + 1 >= VAR_MAX_SCOPES {
        return Panic(TooManyScopes);
      }
      var bound := BindItem(vars, name, vals[i]);
      if !bound {
        return Panic(BadLoopItem);
      }
      var body := RenderTemplateFile(sys, lib, vars, tmpl);
      if body.Panic? {
        return body;
      }
      PrependTwice(out, body.value, RenderLoop(sys, lib, scopes, name, vals[i + 1..], tmpl));
      assert RenderLoop(sys, lib, scopes, name, vals[i..], tmpl)
          == Prepend(body.value, RenderLoop(sys, lib, scopes, name, vals[i + 1..], tmpl));
      out := out + body.value;
      vars.ScopePop();
      assert vars.Scopes() == scopes;
    }
    assert out + "" == out;
    return Ok(out);
  }

  function Prepend(out: string, r: Result<string>): Result<string>
  {
    match r
    case Ok(s) => Ok(out + s)
    case Panic(f) => Panic(f)
  }

  lemma PrependNothing(r: Result<string>)
    ensures Prepend("", r) == r
  {
    if r.Ok? {
      assert "" + r.value == r.value;
    }
  }

  lemma PrependTwice(a: string, b: string, r: Result<string>)
    ensures Prepend(a, Prepend(b, r)) == Prepend(a + b, r)
  {
    if r.Ok? {
      assert a + (b + r.value) == a + b + r.value;
    }
  }

  /** One loop item as RenderLoop sees it. */
  lemma LoopStep(sys: Sys, lib: Library, scopes: seq<Scope>, name: string, vals: seq<Val>, i: nat, tmpl: string)
    requires Ranked(lib) && i < |vals|
    ensures var scope := ItemScope(name, vals[i]);
            RenderLoop(sys, lib, scopes, name, vals[i..], tmpl) ==
              if |scopes| >= VAR_MAX_SCOPES then Panic(TooManyScopes)
              else if scope.Panic? then Panic(scope.fault)
              else
                var body := RenderTemplate(sys, lib, scopes + [scope.value], tmpl);
                if body.Panic? then body
                else Prepend(body.value, RenderLoop(sys, lib, scopes, name, vals[i + 1..], tmpl))
  {
    assert vals[i..][1..] == vals[i + 1..];
  }

  /** render_template, given the files of the request's output format. */
  method RenderTemplateFile(sys: Sys, lib: Library, vars: Vars, tmpl: string) returns (r: Result<string>)
    requires Ranked(lib) && StacksFit(lib)
    requires vars.Valid()
    modifies vars, vars.scopes
    ensures Framed(vars, r.Ok?, TemplateChain(lib, tmpl))
    ensures r == RenderTemplate(sys, lib, old(vars.Scopes()), tmpl)
    decreases Height(lib, tmpl), 2, 0
  {
    if tmpl !in lib.pages {
      return Ok("");
    }
    r := RenderPageText(sys, lib, Rank(lib, tmpl), vars, lib.pages[tmpl]);
  }

  /** One item of a page as Run sees it. */
  lemma RunStep(sys: Sys, lib: Library, level: nat, scopes: seq<Scope>,
                items: seq<Item>, i: nat, stack: seq<bool>, out: string)
    requires Ranked(lib) && AllBelow(lib, items, level) && i < |items|
    ensures items[i].Func? ==>
              var next := NextStack(sys, scopes, items[i], stack);
              Run(sys, lib, level, scopes, items[i..], stack, out) ==
                if next.Panic? then Panic(next.fault)
                else Run(sys, lib, level, scopes, items[i + 1..], next.value, out)
    ensures !items[i].Func? ==>
              var text := if AllTrue(stack) then Emit(sys, lib, level, scopes, items[i]) else Ok("");
              Run(sys, lib, level, scopes, items[i..], stack, out) ==
                if text.Panic? then text
                else Run(sys, lib, level, scopes, items[i + 1..], stack, out + text.value)
  {
    assert items[i..][1..] == items[i + 1..];
    assert out + "" == out;
  }

  /** render_page: the parser runs the actions from left to right. */
  method RenderPageText(sys: Sys, lib: Library, ghost level: nat, vars: Vars, items: seq<Item>)
    returns (r: Result<string>)
    requires Ranked(lib) && StacksFit(lib)
    requires AllBelow(lib, items, level) && Fits(items, 0, COND_STACK_DEPTH)
    requires vars.Valid()
    modifies vars, vars.scopes
    ensures Framed(vars, r.Ok?, Chain(lib, level, items))
    ensures r == RenderPage(sys, lib, level, old(vars.Scopes()), items)
    decreases level + 1, 1, 0
  {
    hide Emit, Test, RenderLoop, RenderTemplate;
    ghost var scopes := vars.Scopes();
    var x := new ParserOutput();
    var out := "";
    for i := 0 to |items|
      invariant x.Valid() && fresh(x) && fresh(x.condStack)
      invariant Framed(vars, true, Chain(lib, level, items))
      invariant Fits(items[i..], |x.Stack()|, COND_STACK_DEPTH)
      invariant Run(sys, lib, level, scopes, items, [], "")
             == Run(sys, lib, level, scopes, items[i..], x.Stack(), out)
    {
      ChainCoversItem(lib, level, items, i);
      RunStep(sys, lib, level, scopes, items, i, x.Stack(), out);
      assert items[i..][1..] == items[i + 1..];
      if items[i].Func? {
        var fault := Function(sys, vars, x, items[i]);
        if fault.Some? {
          return Panic(fault.value);
        }
      } else {
        var cmd := Command(sys, lib, level, vars, x, items[i]);
        if cmd.Panic? {
          return cmd;
        }
        out := out + cmd.value;
      }
    }
    return Ok(out);
  }

  /** A `words` action other than a function call. */
  method Command(sys: Sys, lib: Library, ghost level: nat, vars: Vars, x: ParserOutput, item: Item)
    returns (r: Result<string>)
    requires Ranked(lib) && StacksFit(lib) && Below(lib, item, level) && !item.Func?
    requires vars.Valid() && x.Valid()
    modifies vars, vars.scopes
    ensures Framed(vars, r.Ok?, ItemChain(lib, level, item))
    ensures r == if AllTrue(x.Stack()) then Emit(sys, lib, level, old(vars.Scopes()), item) else Ok("")
    decreases level + 1, 0, 1
  {
    match item
    case Text(s) =>
      var live := x.CondValue();
      r := Ok(if live then s else "");
    case Var(name) =>
      r := Variable(sys, lib, level, vars, x, name);
    case Pipe(name, stages) =>
      r := Pipeline(sys, vars, x, name, stages);
    case Foreach(name, tmpl) =>
      r := ForeachItems(sys, lib, level, vars, x, name, tmpl);
  }
}
