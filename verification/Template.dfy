/**
 The template language as template.y defines it: a page is a flat sequence of
 text and commands, evaluated from left to right with a stack of conditions.
 The functions here give the meaning of the grammar actions; Render holds the
 actions themselves.
 */
module Template {
  import opened Basics
  import opened Vars
  import opened Parse
  import Escape

  /** One right-hand side of the `words` rule after the words before it. */
  datatype Item =
    | Text(s: string)                                  // a character or a word
    | Var(name: string)                                // {name}
    | Pipe(name: string, stages: seq<string>)          // {name|stage|...}
    | Foreach(name: string, tmpl: string)              // {name%tmpl}
    | Func(fxn: string, sa1: Option<string>, sa2: Option<string>)   // {fxn(sa1,sa2)}

  /** The library calls a template depends on: str2u64 and strftime. */
  datatype Sys = Sys(str2u64: string -> Option<nat>, strftime: (string, nat) -> string)

  /** The template files of one output format.  `rank` witnesses that no
      template includes itself, directly or not. */
  datatype Library = Library(pages: map<string, seq<Item>>, rank: map<string, nat>)

  predicate IsTest(item: Item)
  {
    item.Func? && item.fxn in {"ifgt", "iflt", "ifeq", "ifset"}
  }

  predicate IsElse(item: Item)
  {
    item.Func? && item.fxn == "else"
  }

  predicate IsEndif(item: Item)
  {
    item.Func? && item.fxn == "endif"
  }

  // ----- Includes -------------------------------------------------------------

  /** The template an item may include. */
  function Target(item: Item): Option<string>
  {
    match item
    case Var(name) => Some(name)
    case Foreach(_, tmpl) => Some(tmpl)
    case _ => None
  }

  function Rank(lib: Library, tmpl: string): nat
  {
    if tmpl in lib.rank then lib.rank[tmpl] else 0
  }

  /** Zero for a template that does not exist. */
  function Height(lib: Library, tmpl: string): nat
  {
    if tmpl in lib.pages then Rank(lib, tmpl) + 1 else 0
  }

  predicate Below(lib: Library, item: Item, level: nat)
  {
    match Target(item)
    case Some(tmpl) => tmpl in lib.pages ==> Rank(lib, tmpl) < level
    case None => true
  }

  predicate AllBelow(lib: Library, items: seq<Item>, level: nat)
  {
    forall i :: 0 <= i < |items| ==> Below(lib, items[i], level)
  }

  ghost predicate Ranked(lib: Library)
  {
    forall tmpl :: tmpl in lib.pages ==> AllBelow(lib, lib.pages[tmpl], Rank(lib, tmpl))
  }

  // ----- Single commands -------------------------------------------------------

  /** print_var and print_val. */
  function Print(val: Val): Result<string>
  {
    match val
    case Str(s) => Ok(s)
    case Int(i) => Ok(Decimal(i))
    case _ => Panic(NotPrintable)
  }

  const STAGES: seq<string> := ["urlescape", "escape", "time", "date", "zulu", "rfc822"]

  /** pipestage_alloc: an unknown stage does nothing. */
  function StageOf(name: string): string
  {
    if name in STAGES then name else "nop"
  }

  function DateFormat(stage: string): string
  {
    match stage
    case "time" => "%H:%M"
    case "date" => "%B %e, %Y"
    case "zulu" => "%Y-%m-%dT%H:%M:%SZ"
    case _ => "%a, %d %b %Y %H:%M:%S +0000"
  }

  function ApplyStage(sys: Sys, stage: string, val: Val): Result<Val>
  {
    if stage == "nop" then Ok(val)
    else if stage == "urlescape" then
      if val.Str? then Ok(Str(Escape.UrlEscape(val.s))) else Panic(BadStageInput)
    else if stage == "escape" then
      if val.Str? then Ok(Str(Escape.HtmlEscape(val.s))) else Panic(BadStageInput)
    else if val.Int? then Ok(Str(sys.strftime(DateFormat(stage), val.i)))
    else Panic(BadStageInput)
  }

  function ApplyStages(sys: Sys, stages: seq<string>, val: Val): Result<Val>
  {
    if stages == [] then Ok(val)
    else
      match ApplyStage(sys, StageOf(stages[0]), val)
      case Ok(v) => ApplyStages(sys, stages[1..], v)
      case Panic(f) => Panic(f)
  }

  /** The live part of `pipeline`. */
  function PipeOut(sys: Sys, scopes: seq<Scope>, name: string, stages: seq<string>): Result<string>
  {
    match Lookup(scopes, name)
    case None => Ok("")
    case Some(val) =>
      if !val.Str? && !val.Int? then Panic(NotPrintable)
      else
        match ApplyStages(sys, stages, val)
        case Ok(v) => Print(v)
        case Panic(f) => Panic(f)
  }

  function ArgValue(sys: Sys, scopes: seq<Scope>, arg: Option<string>): Result<nat>
  {
    match arg
    case None => Panic(MissingArg)
    case Some(name) =>
      match sys.str2u64(name)
      case Some(n) => Ok(n)
      case None =>
        match Lookup(scopes, name)
        case None => Ok(0)
        case Some(Int(i)) => Ok(i)
        case Some(_) => Panic(CondArgNotInt)
  }

  /** The condition an ifXX function pushes. */
  function Test(sys: Sys, scopes: seq<Scope>, test: Item): Result<bool>
    requires IsTest(test)
  {
    if test.fxn == "ifset" then
      match test.sa1
      case None => Panic(MissingArg)
      case Some(name) => Ok(Lookup(scopes, name).Some?)
    else
      match ArgValue(sys, scopes, test.sa1)
      case Panic(f) => Panic(f)
      case Ok(a) =>
        match ArgValue(sys, scopes, test.sa2)
        case Panic(f) => Panic(f)
        case Ok(b) =>
          Ok(if test.fxn == "ifgt" then a > b else if test.fxn == "iflt" then a < b else a == b)
  }

  /** The effect of `function` on the condition stack.  Dead branches evaluate
      their conditions too. */
  function NextStack(sys: Sys, scopes: seq<Scope>, item: Item, stack: seq<bool>): Result<seq<bool>>
    requires item.Func?
  {
    if IsTest(item) then
      match Test(sys, scopes, item)
      case Ok(b) => Ok(stack + [b])
      case Panic(f) => Panic(f)
    else if IsEndif(item) then
      if stack == [] then Panic(CondStackEmpty) else Ok(DropLast(stack))
    else if IsElse(item) then
      if stack == [] then Panic(CondStackEmpty) else Ok(DropLast(stack) + [!Last(stack)])
    else Panic(NoSuchFunction)
  }

  /** The innermost scope of a loop item. */
  function ItemScope(name: string, item: Val): Result<Scope>
  {
    match item
    case Nvl(pairs) => Ok(pairs)
    case Str(s) => Ok(map[name := Str(s)])
    case _ => Panic(BadLoopItem)
  }

  // ----- The one-pass evaluator -------------------------------------------------

  /** Evaluates the rest of a page given the condition stack and the output so
      far.  The measure is (rank of the template, commands left). */
  function Run(sys: Sys, lib: Library, ghost level: nat, scopes: seq<Scope>,
               items: seq<Item>, stack: seq<bool>, out: string): Result<string>
    requires Ranked(lib) && AllBelow(lib, items, level)
    decreases level + 1, 1, |items|
  {
    if items == [] then Ok(out)
    else if items[0].Func? then
      match NextStack(sys, scopes, items[0], stack)
      case Ok(next) => Run(sys, lib, level, scopes, items[1..], next, out)
      case Panic(f) => Panic(f)
    else if !AllTrue(stack) then Run(sys, lib, level, scopes, items[1..], stack, out)
    else
      match Emit(sys, lib, level, scopes, items[0])
      case Ok(s) => Run(sys, lib, level, scopes, items[1..], stack, out + s)
      case Panic(f) => Panic(f)
  }

  /** What a live item other than a function writes. */
  function Emit(sys: Sys, lib: Library, ghost level: nat, scopes: seq<Scope>, item: Item): Result<string>
    requires Ranked(lib) && Below(lib, item, level) && !item.Func?
    decreases level + 1, 0, 0
  {
    match item
    case Text(s) => Ok(s)
    case Pipe(name, stages) => PipeOut(sys, scopes, name, stages)
    case Var(name) =>
      (match Lookup(scopes, name)
       case Some(val) => Print(val)
       case None => RenderTemplate(sys, lib, scopes, name))
    case Foreach(name, tmpl) =>
      match Lookup(scopes, name)
      case None => Ok("")
      case Some(Arr(vals)) => RenderLoop(sys, lib, scopes, name, vals, tmpl)
      case Some(_) => Panic(NotAnArray)
  }

  /** A missing template renders as nothing; every template starts with an empty
      condition stack. */
  function RenderTemplate(sys: Sys, lib: Library, scopes: seq<Scope>, tmpl: string): Result<string>
    requires Ranked(lib)
    decreases Height(lib, tmpl), 2, 0
  {
    if tmpl in lib.pages then Run(sys, lib, Rank(lib, tmpl), scopes, lib.pages[tmpl], [], "") else Ok("")
  }

  /** The loop of __foreach, which pushes a scope for each item. */
  function RenderLoop(sys: Sys, lib: Library, scopes: seq<Scope>,
                      name: string, vals: seq<Val>, tmpl: string): Result<string>
    requires Ranked(lib)
    decreases Height(lib, tmpl), 3, |vals|
  {
    if vals == [] then Ok("")
    else if |scopes| >= VAR_MAX_SCOPES then Panic(TooManyScopes)
    else
      match ItemScope(name, vals[0])
      case Panic(f) => Panic(f)
      case Ok(scope) =>
        match RenderTemplate(sys, lib, scopes + [scope], tmpl)
        case Panic(f) => Panic(f)
        case Ok(s) =>
          match RenderLoop(sys, lib, scopes, name, vals[1..], tmpl)
          case Panic(f) => Panic(f)
          case Ok(t) => Ok(s + t)
  }

  /** render_page. */
  function RenderPage(sys: Sys, lib: Library, ghost level: nat, scopes: seq<Scope>, items: seq<Item>): Result<string>
    requires Ranked(lib) && AllBelow(lib, items, level)
  {
    Run(sys, lib, level, scopes, items, [], "")
  }
}
